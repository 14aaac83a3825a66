/**
  One TcpConnection (src/TcpConnection.cc) with its channel callbacks (src/Channel.cc:71-102),
  as a state machine over the calls that reach it on its loop thread.

  System calls are parameters with the contract of their manual page. What the connection
  does to the outside is recorded: bytes the socket took, functors queued on the loop,
  callbacks made, operations on its channel.
*/
module Connections {
  import opened Options
  import BB = ByteBuffers
  import opened Epoll

  type Byte = BB.Byte

  datatype State = Disconnected | Connecting | Connected | Disconnecting

  datatype Errno = WouldBlock | BrokenPipe | ConnReset | OtherErrno

  datatype WriteResult = Wrote(n: nat) | WriteFailed(errno: Errno)

  /** Functors the connection queues on its loop. */
  datatype Queued = WriteComplete | HighWater(size: nat)

  /** Which form of the two departing lines is in force, and what the user has set. */
  datatype Config = Config(
    compaction: BB.Compaction,
    disabling: Disabling,
    mark: nat,
    onWriteComplete: bool,
    onHighWater: bool)

  /** The socket: the bytes it took, and whether shutdownWrite was called on it. */
  datatype Socket = Socket(sent: seq<Byte>, shut: bool)

  /** History, for stating properties only: no branch of the connection looks at it. */
  datatype Log = Log(
    accepted: seq<Byte>,        // messages taken by sendInLoop, concatenated
    received: seq<Byte>,        // bytes delivered by readv
    consumed: seq<Byte>,        // bytes the message callback took from the input buffer
    ups: nat, downs: nat, closes: nat,
    shutdowns: seq<nat>,        // output bytes still buffered at each shutdownWrite
    lateWrites: nat,            // write calls made after shutdownWrite
    sizes: seq<nat>,            // buffered output after each change of the output buffer
    buffered: bool,             // output was buffered at some time
    spoiled: bool,              // an append compacted with a length that compaction is not right for
    aligned: bool,              // after every append and read so far its stream was in order
    ops: seq<ChannelOp>)        // operations on the channel

  datatype Conn = Conn(
    cfg: Config,
    state: State,
    chan: Reg,
    out: BB.ValidBuf,
    inp: BB.ValidBuf,
    queued: seq<Queued>,
    sock: Socket,
    log: Log,
    broken: bool)               // a copy has left its vector: the source is undefined from here

  const NEW_LOG := Log([], [], [], 0, 0, 0, [], 0, [0], false, false, true, [])

  function NewConn(cfg: Config): Conn {
    Conn(cfg, Connecting, UNREGISTERED, BB.NewBuf(1024), BB.NewBuf(1024), [], Socket([], false), NEW_LOG, false)
  }

  predicate IsWriting(c: Conn) {
    c.chan.events.out
  }

  function Interest(c: Conn, op: ChannelOp): Conn {
    c.(chan := RegStep(c.cfg.disabling, c.chan, op), log := c.log.(ops := c.log.ops + [op]))
  }

  function Queue(c: Conn, f: Queued): Conn {
    c.(queued := c.queued + [f])
  }

  // ---------------------------------------------------------------- output

  /** write(2): at most what was offered; once the write side is shut EPIPE, or ECONNRESET after a reset. */
  predicate LegalWrite(c: Conn, len: nat, w: WriteResult) {
    (w.Wrote? ==> w.n <= len) && (c.sock.shut ==> w in {WriteFailed(BrokenPipe), WriteFailed(ConnReset)})
  }

  function WriteCall(c: Conn, bytes: seq<Byte>, w: WriteResult): Conn
    requires LegalWrite(c, |bytes|, w)
  {
    c.(sock := if w.Wrote? then c.sock.(sent := c.sock.sent + bytes[..w.n]) else c.sock,
       log := if c.sock.shut then c.log.(lateWrites := c.log.lateWrites + 1) else c.log)
  }

  /** sendInLoop tries the socket before the buffer. */
  predicate WritesDirectly(c: Conn) {
    c.state != Disconnected && !IsWriting(c) && c.out.Readable() == 0
  }

  /** The high-water test of sendInLoop, for len bytes about to be buffered. */
  function NoteHighWater(c: Conn, len: nat): Conn {
    var size := c.out.Readable() + len;
    if c.cfg.mark <= size && c.out.Readable() < c.cfg.mark && c.cfg.onHighWater
    then Queue(c, HighWater(size)) else c
  }

  /** sendInLoop once the append to the output buffer came out as a. */
  function Appended(c: Conn, a: Option<BB.ValidBuf>, spoils: bool): Conn {
    var log := c.log.(spoiled := c.log.spoiled || spoils);
    if a.None? then c.(broken := true, log := log)
    else
      var c1 := c.(out := a.value,
                   log := log.(buffered := true, sizes := log.sizes + [a.value.Readable()],
                               aligned := log.aligned && c.sock.sent + a.value.Contents() == log.accepted));
      if IsWriting(c1) then c1 else Interest(c1, EnableWriting)
  }

  /** An append of rest to the output buffer compacts with a wrong length. */
  predicate Spoils(b: BB.ValidBuf, rest: seq<Byte>) {
    !BB.Harmless(b, BB.OpAppend(rest))
  }

  /** The tail of sendInLoop: high-water test, append, enableWriting. */
  function BufferRest(c: Conn, rest: seq<Byte>): Conn {
    Appended(NoteHighWater(c, |rest|), BB.Append(c.cfg.compaction, c.out, rest), Spoils(c.out, rest))
  }

  /** sendInLoop up to the point where the message is dropped, finished or left to be buffered. */
  function TryWrite(c: Conn, msg: seq<Byte>, w: WriteResult): Conn
    requires LegalWrite(c, |msg|, w)
  {
    var c1 := WriteCall(c, msg, w);
    if w == Wrote(|msg|) && c.cfg.onWriteComplete then Queue(c1, WriteComplete) else c1
  }

  function SendInLoop(c: Conn, msg: seq<Byte>, w: WriteResult): Conn
    requires WritesDirectly(c) ==> LegalWrite(c, |msg|, w)
  {
    if c.state == Disconnected then c
    else
      var direct := WritesDirectly(c);
      var wrote := if direct && w.Wrote? then w.n else 0;
      var c1 := if direct then TryWrite(c, msg, w) else c;
      if direct && w.WriteFailed? && (w.errno == BrokenPipe || w.errno == ConnReset) then c1
      else
        var c2 := c1.(log := c1.log.(accepted := c1.log.accepted + msg));
        if wrote < |msg| then BufferRest(c2, msg[wrote..]) else c2
  }

  function ShutdownInLoop(c: Conn): Conn {
    if IsWriting(c) then c
    else c.(sock := c.sock.(shut := true),
            log := c.log.(shutdowns := c.log.shutdowns + [c.out.Readable()]))
  }

  /** shutdown, called on the loop thread. */
  function Shutdown(c: Conn): Conn {
    if c.state == Connected then ShutdownInLoop(c.(state := Disconnecting)) else c
  }

  /** handleWrite once the output buffer is empty. */
  function Drained(c: Conn): Conn {
    var c1 := Interest(c, DisableWriting);
    var c2 := if c.cfg.onWriteComplete then Queue(c1, WriteComplete) else c1;
    if c.state == Disconnecting then ShutdownInLoop(c2) else c2
  }

  /** handleWrite from the point where writeFd has taken n > 0 bytes. */
  function AfterWrite(c: Conn, n: nat): Conn {
    var out := BB.Retrieve(c.out, n);
    var c1 := c.(out := out, log := c.log.(sizes := c.log.sizes + [out.Readable()]));
    if out.Readable() == 0 then Drained(c1) else c1
  }

  function HandleWrite(c: Conn, w: WriteResult): Conn
    requires IsWriting(c) ==> LegalWrite(c, c.out.Readable(), w)
  {
    if !IsWriting(c) then c
    else
      var c1 := WriteCall(c, c.out.Contents(), w);
      if w.Wrote? && w.n > 0 then AfterWrite(c1, w.n) else c1
  }

  // ---------------------------------------------------------------- user code and input

  /** What a callback may do with the connection it is given. */
  datatype UserAct = Send(msg: seq<Byte>, w: WriteResult) | CallShutdown | Take(n: nat)

  predicate LegalAct(c: Conn, act: UserAct) {
    act.Send? && c.state == Connected && WritesDirectly(c) ==> LegalWrite(c, |act.msg|, act.w)
  }

  function Act(c: Conn, act: UserAct): Conn
    requires LegalAct(c, act)
  {
    match act
    case Send(msg, w) => if c.state == Connected then SendInLoop(c, msg, w) else c
    case CallShutdown => Shutdown(c)
    case Take(n) =>
      var k := if n < c.inp.Readable() then n else c.inp.Readable();
      c.(inp := BB.Retrieve(c.inp, n), log := c.log.(consumed := c.log.consumed + c.inp.Contents()[..k]))
  }

  predicate LegalActs(c: Conn, acts: seq<UserAct>)
    decreases |acts|
  {
    acts == [] || (LegalAct(c, acts[0]) && LegalActs(Act(c, acts[0]), acts[1..]))
  }

  function Acts(c: Conn, acts: seq<UserAct>): Conn
    requires LegalActs(c, acts)
    decreases |acts|
  {
    if acts == [] then c else Acts(Act(c, acts[0]), acts[1..])
  }

  /** handleClose. Its callbacks' own sends and shutdowns are no-ops: the state is kDisconnected. */
  function HandleClose(c: Conn): Conn {
    var c1 := Interest(c.(state := Disconnected), DisableAll);
    c1.(log := c1.log.(downs := c1.log.downs + 1, closes := c1.log.closes + 1))
  }

  /** readFd into the input buffer; broken when the copy would leave the vector. */
  function Receive(c: Conn, res: BB.ReadResult): Conn
    requires BB.LegalRead(c.inp, res)
  {
    var r := BB.ReadFd(c.cfg.compaction, c.inp, res);
    var log := c.log.(spoiled := c.log.spoiled || ReadSpoils(c.inp, res));
    if r.None? then c.(broken := true, log := log)
    else
      var received := if res.Got? then log.received + res.bytes else log.received;
      c.(inp := r.value,
         log := log.(received := received,
                     aligned := log.aligned && log.consumed + r.value.Contents() == received))
  }

  /** The append inside readFd compacts with a wrong length. */
  predicate ReadSpoils(b: BB.ValidBuf, res: BB.ReadResult) {
    !BB.Harmless(b, BB.OpReadFd(res))
  }

  predicate LegalHandleRead(c: Conn, res: BB.ReadResult, acts: seq<UserAct>) {
    BB.LegalRead(c.inp, res) && (res.Got? && res.bytes != [] ==> LegalActs(Receive(c, res), acts))
  }

  /** handleRead; acts is what the message callback does. */
  function HandleRead(c: Conn, res: BB.ReadResult, acts: seq<UserAct>): Conn
    requires LegalHandleRead(c, res, acts)
  {
    var c1 := Receive(c, res);
    if res.Failed? then c1
    else if res.bytes != [] then Acts(c1, acts)
    else HandleClose(c1)
  }

  // ---------------------------------------------------------------- event dispatch

  /** One report of epoll_wait, with the system-call results its handlers will meet. */
  datatype Event = Event(mask: Mask, res: BB.ReadResult, acts: seq<UserAct>, w: WriteResult)

  function EventClose(c: Conn, e: Event): Conn {
    if e.mask.hup && !e.mask.inp then HandleClose(c) else c
  }

  predicate LegalEventRead(c: Conn, e: Event) {
    e.mask.inp || e.mask.pri ==> LegalHandleRead(EventClose(c, e), e.res, e.acts)
  }

  function EventRead(c: Conn, e: Event): Conn
    requires LegalEventRead(c, e)
  {
    var c1 := EventClose(c, e);
    if e.mask.inp || e.mask.pri then HandleRead(c1, e.res, e.acts) else c1
  }

  /** Only a registered channel is reported, and its handlers see legal system-call results. */
  predicate LegalEvent(c: Conn, e: Event) {
    && c.chan.kernel.Some?
    && LegalEventRead(c, e)
    && (e.mask.out && IsWriting(EventRead(c, e)) ==>
          LegalWrite(EventRead(c, e), EventRead(c, e).out.Readable(), e.w))
  }

  /** handleEventWithGuard: close, error (which only logs), read, write, in this order. */
  function HandleEvent(c: Conn, e: Event): Conn
    requires LegalEvent(c, e)
  {
    var c1 := EventRead(c, e);
    if e.mask.out then HandleWrite(c1, e.w) else c1
  }

  // ---------------------------------------------------------------- runs

  /**
    Calls that reach a connection: the two ends of its life, user code on the loop thread, a
    sendInLoop functor queued earlier by another thread, and events.
  */
  datatype Op =
    | Establish(acts: seq<UserAct>)
    | User(act: UserAct)
    | QueuedSend(msg: seq<Byte>, w: WriteResult)
    | Dispatch(e: Event)
    | Destroy

  function Established(c: Conn): Conn {
    var c1 := Interest(c.(state := Connected), EnableReading);
    c1.(log := c1.log.(ups := c1.log.ups + 1))
  }

  function Destroyed(c: Conn): Conn {
    var c1 := if c.state == Connected then
                var d := Interest(c.(state := Disconnected), DisableAll);
                d.(log := d.log.(downs := d.log.downs + 1))
              else c;
    Interest(c1, Remove)
  }

  /**
    Established once, from kConnecting; a queued send was accepted while connected; the server
    outlives its connections, so none is destroyed while it is disconnecting or unestablished.
  */
  predicate LegalOp(c: Conn, op: Op) {
    match op
    case Establish(acts) => c.state == Connecting && LegalActs(Established(c), acts)
    case User(act) => LegalAct(c, act)
    case QueuedSend(msg, w) => c.log.ups > 0 && (WritesDirectly(c) ==> LegalWrite(c, |msg|, w))
    case Dispatch(e) => LegalEvent(c, e)
    case Destroy => c.state == Connected || c.state == Disconnected
  }

  function Step(c: Conn, op: Op): Conn
    requires LegalOp(c, op)
  {
    match op
    case Establish(acts) => Acts(Established(c), acts)
    case User(act) => Act(c, act)
    case QueuedSend(msg, w) => SendInLoop(c, msg, w)
    case Dispatch(e) => HandleEvent(c, e)
    case Destroy => Destroyed(c)
  }

  predicate LegalRun(c: Conn, ops: seq<Op>)
    decreases |ops|
  {
    ops == [] || (LegalOp(c, ops[0]) && LegalRun(Step(c, ops[0]), ops[1..]))
  }

  function Run(c: Conn, ops: seq<Op>): Conn
    requires LegalRun(c, ops)
    decreases |ops|
  {
    if ops == [] then c else Run(Step(c, ops[0]), ops[1..])
  }
}
