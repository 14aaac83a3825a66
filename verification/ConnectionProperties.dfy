/** What every run of one connection keeps: registration, write interest, shutdown and callback counts. */
module ConnectionProperties {
  import opened Options
  import BB = ByteBuffers
  import opened Epoll
  import opened Connections

  // ---------------------------------------------------------------- the control invariant

  predicate Live(c: Conn) {
    c.state == Connected || c.state == Disconnecting
  }

  /** State, channel and kernel entry match, and the channel never reached LOG_FATAL. */
  predicate Registered(c: Conn) {
    && !c.chan.fatal
    && (c.state == Connecting <==> c.log.ups == 0)
    && (c.state == Connecting ==> c.chan == UNREGISTERED)
    && (Live(c) ==> c.chan.index == Added && c.chan.kernel == Some(c.chan.events) && c.chan.events != NONE_EVENT)
    && (c.state == Disconnected ==> c.chan.kernel == None && c.chan.events == NONE_EVENT)
  }

  /** A handleWrite has emptied the output buffer: an empty buffer after the first entry of the sizes. */
  predicate HasDrained(sizes: seq<nat>) {
    exists i | 0 < i < |sizes| :: sizes[i] == 0
  }

  /**
    Pending output is being waited for. As meant, write interest is nothing else, and read interest
    stays; as written, write interest is that output was ever buffered, and read interest
    stays until a drain.
  */
  predicate Armed(c: Conn) {
    && c.log.sizes != []
    && (c.state == Connecting ==> c.out.Readable() == 0 && !c.log.buffered && |c.log.sizes| == 1)
    && (c.state != Disconnected && c.out.Readable() > 0 ==> IsWriting(c))
    && (c.cfg.disabling == MaskAsMeant && c.state != Disconnected ==> (IsWriting(c) <==> c.out.Readable() > 0))
    && (c.cfg.disabling == MaskAsMeant && Live(c) ==> c.chan.events.inp)
    && (c.cfg.disabling == MaskAsWritten && Live(c) ==> (IsWriting(c) <==> c.log.buffered))
    && (c.cfg.disabling == MaskAsWritten && Live(c) ==> (c.chan.events.inp <==> !HasDrained(c.log.sizes)))
    && (c.cfg.disabling == MaskAsWritten && Live(c) ==> (c.chan.events.pri <==> c.chan.events.inp))
  }

  /** shutdownWrite was called at most once, with nothing left to send, and nothing follows it. */
  predicate ShutClean(c: Conn) {
    && |c.log.shutdowns| <= 1
    && (c.sock.shut <==> c.log.shutdowns == [0])
    && (!c.sock.shut <==> c.log.shutdowns == [])
    && (c.sock.shut ==> c.state == Disconnecting || c.state == Disconnected)
    && (c.sock.shut && c.state == Disconnecting ==> c.out.Readable() == 0)
    && (c.state == Disconnecting ==> (c.sock.shut <==> !IsWriting(c)))
  }

  predicate Control(c: Conn) {
    Registered(c) && Armed(c) && ShutClean(c)
  }

  /** The two connections differ in nothing the control invariant looks at. */
  predicate SameControl(c: Conn, d: Conn) {
    && d.cfg == c.cfg && d.state == c.state && d.chan == c.chan && d.sock.shut == c.sock.shut
    && d.out.Readable() == c.out.Readable() && d.log.ups == c.log.ups
    && d.log.shutdowns == c.log.shutdowns && d.log.buffered == c.log.buffered && d.log.sizes == c.log.sizes
  }

  lemma HasDrainedExtends(sizes: seq<nat>, size: nat)
    requires sizes != []
    ensures HasDrained(sizes + [size]) <==> HasDrained(sizes) || size == 0
  {
    var all := sizes + [size];
    if HasDrained(sizes) {
      var i :| 0 < i < |sizes| && sizes[i] == 0;
      assert all[i] == 0;
    }
    if size == 0 {
      assert all[|sizes|] == 0;
    }
    if HasDrained(all) {
      var i :| 0 < i < |all| && all[i] == 0;
      assert i < |sizes| ==> sizes[i] == 0;
    }
  }

  lemma DisableWritingReg(f: Disabling, r: Reg)
    requires !r.fatal && r.index == Added && r.kernel.Some? && r.events.out
    requires f == MaskAsMeant ==> r.events.inp
    ensures var q := RegStep(f, r, DisableWriting);
            && !q.fatal && q.index == Added && q.kernel == Some(q.events)
            && q.events.out == (f == MaskAsWritten) && q.events.inp == (f == MaskAsMeant)
            && (f == MaskAsWritten ==> !q.events.pri)
  {}

  lemma AppendedKeepsControl(c: Conn, a: Option<BB.ValidBuf>, spoils: bool)
    requires Control(c) && Live(c) && !c.sock.shut
    requires a.Some? ==> a.value.Readable() > 0
    ensures Control(Appended(c, a, spoils))
    ensures Appended(c, a, spoils).state == c.state
  {
    if a.Some? {
      HasDrainedExtends(c.log.sizes, a.value.Readable());
    }
  }

  lemma BufferRestKeepsControl(c: Conn, rest: seq<Byte>)
    requires Control(c) && Live(c) && !c.sock.shut && rest != []
    ensures Control(BufferRest(c, rest)) && BufferRest(c, rest).state == c.state
  {
    hide BB.Append, Appended, Spoils;
    var a := BB.Append(c.cfg.compaction, c.out, rest);
    if a.Some? {
      BB.AppendLeavesReadable(c.cfg.compaction, c.out, rest);
    }
    assert SameControl(c, NoteHighWater(c, |rest|));
    AppendedKeepsControl(NoteHighWater(c, |rest|), a, Spoils(c.out, rest));
  }

  lemma SendKeepsControl(c: Conn, msg: seq<Byte>, w: WriteResult)
    requires Control(c) && c.state != Connecting
    requires WritesDirectly(c) ==> LegalWrite(c, |msg|, w)
    ensures Control(SendInLoop(c, msg, w))
    ensures SendInLoop(c, msg, w).state == c.state
  {
    hide BufferRest;
    if c.state != Disconnected {
      var wrote := if WritesDirectly(c) && w.Wrote? then w.n else 0;
      var c1 := if WritesDirectly(c) then TryWrite(c, msg, w) else c;
      var c2 := c1.(log := c1.log.(accepted := c1.log.accepted + msg));
      assert SameControl(c, c1) && SameControl(c, c2);
      if wrote < |msg| && !c.sock.shut {
        BufferRestKeepsControl(c2, msg[wrote..]);
      }
    }
  }

  lemma ShutdownKeepsControl(c: Conn)
    requires Control(c)
    ensures Control(Shutdown(c))
  {}

  lemma DrainedKeepsControl(c: Conn, out: BB.ValidBuf)
    requires Control(c) && Live(c) && IsWriting(c) && out.Readable() == 0
    ensures Control(Drained(c.(out := out, log := c.log.(sizes := c.log.sizes + [0]))))
  {
    hide RegStep, HasDrained;
    HasDrainedExtends(c.log.sizes, 0);
    DisableWritingReg(c.cfg.disabling, c.chan);
  }

  lemma WriteKeepsControl(c: Conn, w: WriteResult)
    requires Control(c)
    requires IsWriting(c) ==> LegalWrite(c, c.out.Readable(), w)
    ensures Control(HandleWrite(c, w))
  {
    hide Drained, HasDrained;
    if IsWriting(c) {
      var c1 := WriteCall(c, c.out.Contents(), w);
      assert Control(c1);
      if w.Wrote? && w.n > 0 {
        var out := BB.Retrieve(c1.out, w.n);
        HasDrainedExtends(c1.log.sizes, out.Readable());
        if out.Readable() == 0 {
          DrainedKeepsControl(c1, out);
        }
      }
    }
  }

  lemma ActKeepsControl(c: Conn, act: UserAct)
    requires Control(c) && LegalAct(c, act)
    ensures Control(Act(c, act))
    ensures c.state != Connecting ==> Act(c, act).state != Connecting
  {
    hide SendInLoop;
    match act
    case Send(msg, w) =>
      if c.state == Connected {
        SendKeepsControl(c, msg, w);
      }
    case CallShutdown => ShutdownKeepsControl(c);
    case Take(n) =>
  }

  lemma {:induction false} ActsKeepControl(c: Conn, acts: seq<UserAct>)
    requires Control(c) && LegalActs(c, acts)
    ensures Control(Acts(c, acts))
    decreases |acts|
  {
    if acts != [] {
      ActKeepsControl(c, acts[0]);
      ActsKeepControl(Act(c, acts[0]), acts[1..]);
    }
  }

  lemma CloseKeepsControl(c: Conn)
    requires Control(c) && c.chan.index == Added
    ensures Control(HandleClose(c)) && HandleClose(c).chan.index == Added
  {}

  lemma ReadKeepsControl(c: Conn, res: BB.ReadResult, acts: seq<UserAct>)
    requires Control(c) && c.chan.index == Added && LegalHandleRead(c, res, acts)
    ensures Control(HandleRead(c, res, acts))
  {
    hide Acts, HandleClose, BB.ReadFd, ReadSpoils, HasDrained;
    var c1 := Receive(c, res);
    assert SameControl(c, c1);
    if res.Got? && res.bytes != [] {
      ActsKeepControl(c1, acts);
    } else if res.Got? {
      CloseKeepsControl(c1);
    }
  }

  lemma EventKeepsControl(c: Conn, e: Event)
    requires Control(c) && LegalEvent(c, e)
    ensures Control(HandleEvent(c, e))
  {
    hide HandleRead, HandleWrite;
    if e.mask.hup && !e.mask.inp {
      CloseKeepsControl(c);
    }
    if e.mask.inp || e.mask.pri {
      ReadKeepsControl(EventClose(c, e), e.res, e.acts);
    }
    if e.mask.out {
      WriteKeepsControl(EventRead(c, e), e.w);
    }
  }

  lemma StepKeepsControl(c: Conn, op: Op)
    requires Control(c) && LegalOp(c, op)
    ensures Control(Step(c, op))
  {
    hide Acts, SendInLoop, HandleEvent;
    match op
    case Establish(acts) =>
      ActsKeepControl(Established(c), acts);
    case User(act) => ActKeepsControl(c, act);
    case QueuedSend(msg, w) => SendKeepsControl(c, msg, w);
    case Dispatch(e) => EventKeepsControl(c, e);
    case Destroy =>
  }

  lemma {:induction false} RunKeepsControl(c: Conn, ops: seq<Op>)
    requires Control(c) && LegalRun(c, ops)
    ensures Control(Run(c, ops))
    decreases |ops|
  {
    if ops != [] {
      StepKeepsControl(c, ops[0]);
      RunKeepsControl(Step(c, ops[0]), ops[1..]);
    }
  }

  // ---------------------------------------------------------------- what one call may change

  /** The channel is where its recorded operations put it. */
  predicate Traced(c: Conn) {
    c.chan == RegRun(c.cfg.disabling, c.log.ops)
  }

  /** An established connection whose read interest is gone. */
  predicate Deaf(c: Conn) {
    c.state != Connecting && !c.chan.events.inp && !c.chan.events.pri
  }

  lemma InterestKeepsDeaf(c: Conn, op: ChannelOp)
    requires Deaf(c) && op != EnableReading
    ensures Deaf(Interest(c, op))
  {}

  lemma InterestIsTraced(c: Conn, op: ChannelOp)
    requires Traced(c)
    ensures Traced(Interest(c, op))
  {}

  /**
    From a call to the end of it: once the write side is shut the socket takes no more bytes;
    shutdownWrite calls are only added; and with disableWriting as written, none is added once
    output has been buffered.
  */
  predicate Tail(c: Conn, d: Conn) {
    && d.cfg == c.cfg
    && (Traced(c) ==> Traced(d))
    && (Deaf(c) ==> Deaf(d))
    && (c.sock.shut ==> d.sock == c.sock)
    && c.log.shutdowns <= d.log.shutdowns
    && (c.log.buffered ==> d.log.buffered)
    && (c.cfg.disabling == MaskAsWritten && c.log.buffered ==> d.log.shutdowns == c.log.shutdowns)
  }

  /** A call that makes no connection or close callback. */
  predicate Quiet(c: Conn, d: Conn) {
    && Tail(c, d)
    && (d.state == c.state || (c.state == Connected && d.state == Disconnecting))
    && d.log.ups == c.log.ups && d.log.downs == c.log.downs && d.log.closes == c.log.closes
    && d.log.received == c.log.received
    && (c.chan.index == Added ==> d.chan.index == Added)
    && (c.state == Disconnected ==> d.chan == c.chan)
  }

  lemma AppendedIsQuiet(c: Conn, a: Option<BB.ValidBuf>, spoils: bool)
    requires c.state != Disconnected
    ensures Quiet(c, Appended(c, a, spoils))
    ensures Appended(c, a, spoils).log.lateWrites == c.log.lateWrites
  {}

  lemma BufferRestIsQuiet(c: Conn, rest: seq<Byte>)
    requires c.state != Disconnected
    ensures Quiet(c, BufferRest(c, rest))
    ensures BufferRest(c, rest).log.lateWrites == c.log.lateWrites
  {
    hide BB.Append, Appended, RegRun, Spoils;
    AppendedIsQuiet(NoteHighWater(c, |rest|), BB.Append(c.cfg.compaction, c.out, rest), Spoils(c.out, rest));
  }

  lemma SendIsQuiet(c: Conn, msg: seq<Byte>, w: WriteResult)
    requires Control(c)
    requires WritesDirectly(c) ==> LegalWrite(c, |msg|, w)
    ensures Quiet(c, SendInLoop(c, msg, w))
    ensures SendInLoop(c, msg, w).log.lateWrites ==
              c.log.lateWrites + (if c.sock.shut && c.state != Disconnected then 1 else 0)
  {
    hide RegRun, BufferRest;
    if c.state != Disconnected {
      var wrote := if WritesDirectly(c) && w.Wrote? then w.n else 0;
      var c1 := if WritesDirectly(c) then TryWrite(c, msg, w) else c;
      BufferRestIsQuiet(c1.(log := c1.log.(accepted := c1.log.accepted + msg)), msg[wrote..]);
    }
  }

  lemma DrainedIsQuiet(c: Conn)
    requires !c.sock.shut && IsWriting(c) && c.state != Disconnected
    ensures Quiet(c, Drained(c)) && Drained(c).log.lateWrites == c.log.lateWrites
  {
    hide RegRun;
    if Traced(c) {
      InterestIsTraced(c, DisableWriting);
    }
    if Deaf(c) {
      InterestKeepsDeaf(c, DisableWriting);
    }
  }

  lemma WriteIsQuiet(c: Conn, w: WriteResult)
    requires Control(c)
    requires IsWriting(c) ==> LegalWrite(c, c.out.Readable(), w)
    ensures Quiet(c, HandleWrite(c, w))
    ensures HandleWrite(c, w).log.lateWrites == c.log.lateWrites
  {
    hide RegRun, Drained;
    if IsWriting(c) {
      var c1 := WriteCall(c, c.out.Contents(), w);
      assert Quiet(c, c1) && c1.log.lateWrites == c.log.lateWrites;
      if w.Wrote? && w.n > 0 {
        var out := BB.Retrieve(c1.out, w.n);
        if out.Readable() == 0 {
          DrainedIsQuiet(c1.(out := out, log := c1.log.(sizes := c1.log.sizes + [out.Readable()])));
        }
      }
    }
  }

  lemma ActIsQuiet(c: Conn, act: UserAct)
    requires Control(c) && LegalAct(c, act)
    ensures Quiet(c, Act(c, act))
    ensures Act(c, act).log.lateWrites == c.log.lateWrites
  {
    hide RegRun, SendInLoop;
    if act.Send? && c.state == Connected {
      SendIsQuiet(c, act.msg, act.w);
    }
  }

  lemma {:induction false} ActsAreQuiet(c: Conn, acts: seq<UserAct>)
    requires Control(c) && LegalActs(c, acts)
    ensures Quiet(c, Acts(c, acts))
    ensures Acts(c, acts).log.lateWrites == c.log.lateWrites
    decreases |acts|
  {
    if acts != [] {
      ActIsQuiet(c, acts[0]);
      ActKeepsControl(c, acts[0]);
      ActsAreQuiet(Act(c, acts[0]), acts[1..]);
    }
  }

  lemma DisconnectedIgnoresAct(c: Conn, act: UserAct)
    requires c.state == Disconnected && LegalAct(c, act) && !act.Take?
    ensures Act(c, act) == c
  {
    hide SendInLoop, ShutdownInLoop;
  }

  /** User code run inside the DOWN callback cannot touch the connection. */
  lemma {:induction false} DisconnectedIgnoresUser(c: Conn, acts: seq<UserAct>)
    requires c.state == Disconnected && LegalActs(c, acts) && (forall a | a in acts :: !a.Take?)
    ensures Acts(c, acts) == c
    decreases |acts|
  {
    hide Act;
    if acts != [] {
      DisconnectedIgnoresAct(c, acts[0]);
      DisconnectedIgnoresUser(c, acts[1..]);
    }
  }

  // ---------------------------------------------------------------- callbacks

  /** The combination for which one dispatch can run handleClose twice. */
  predicate HupPriWithoutIn(m: Mask) {
    m.hup && m.pri && !m.inp
  }

  /** How many times one dispatch runs handleClose. */
  function ClosesOf(e: Event): nat {
    (if e.mask.hup && !e.mask.inp then 1 else 0) +
    (if (e.mask.inp || e.mask.pri) && e.res.Got? && e.res.bytes == [] then 1 else 0)
  }

  /** Tail, with the callback counts moved by k closes and nothing else. */
  predicate Closing(c: Conn, d: Conn, k: nat) {
    && Tail(c, d) && d.log.lateWrites == c.log.lateWrites && d.log.ups == c.log.ups
    && d.log.downs == c.log.downs + k && d.log.closes == c.log.closes + k
    && (d.state == Disconnected <==> k > 0 || c.state == Disconnected)
    && (c.chan.index == Added ==> d.chan.index == Added)
  }

  lemma CloseCloses(c: Conn)
    ensures Closing(c, HandleClose(c), 1)
  {}

  lemma ReadCloses(c: Conn, res: BB.ReadResult, acts: seq<UserAct>)
    requires Control(c) && LegalHandleRead(c, res, acts)
    ensures Closing(c, HandleRead(c, res, acts), if res.Got? && res.bytes == [] then 1 else 0)
  {
    hide RegRun, Acts, HandleClose, BB.ReadFd, ReadSpoils;
    var r := Receive(c, res);
    assert SameControl(c, r) && Closing(c, r, 0);
    CloseCloses(r);
    if res.Got? && res.bytes != [] {
      ActsAreQuiet(r, acts);
    }
  }

  /** An event changes the callback counts by its own closes, and the socket only as Tail allows. */
  lemma EventCloses(c: Conn, e: Event)
    requires Control(c) && LegalEvent(c, e)
    ensures Closing(c, HandleEvent(c, e), ClosesOf(e))
  {
    hide RegRun, HandleClose, HandleRead, HandleWrite;
    var c1, c2 := EventClose(c, e), EventRead(c, e);
    if e.mask.hup && !e.mask.inp {
      CloseKeepsControl(c);
      CloseCloses(c);
    }
    if e.mask.inp || e.mask.pri {
      ReadKeepsControl(c1, e.res, e.acts);
      ReadCloses(c1, e.res, e.acts);
    }
    if e.mask.out {
      WriteIsQuiet(c2, e.w);
    }
  }

  /** A write handler that runs after the close handler of the same event does nothing. */
  lemma NoWriteAfterClose(c: Conn, e: Event)
    requires Control(c) && LegalEvent(c, e) && ClosesOf(e) > 0
    ensures HandleEvent(c, e) == EventRead(c, e)
  {
    var c1 := EventClose(c, e);
    if e.mask.hup && !e.mask.inp {
      CloseKeepsControl(c);
    }
    if e.mask.inp || e.mask.pri {
      ReadKeepsControl(c1, e.res, e.acts);
      ReadCloses(c1, e.res, e.acts);
    }
  }

  /** UP once, DOWN and close at most once, and at which state each stands. */
  predicate Counts(c: Conn) {
    && c.log.ups == (if c.state == Connecting then 0 else 1)
    && c.log.downs == (if c.state == Disconnected then 1 else 0)
    && c.log.closes <= c.log.downs
  }

  predicate Gentle(op: Op) {
    op.Dispatch? ==> !HupPriWithoutIn(op.e.mask)
  }

  lemma DestroyedTail(c: Conn)
    ensures Tail(c, Destroyed(c))
  {}

  lemma EstablishedTail(c: Conn)
    requires c.state == Connecting
    ensures Tail(c, Established(c))
  {}

  lemma StepEffects(c: Conn, op: Op)
    requires Control(c) && LegalOp(c, op)
    ensures var d := Step(c, op);
            && Tail(c, d)
            && (Counts(c) && Gentle(op) ==> Counts(d))
            && d.log.lateWrites ==
                 c.log.lateWrites + (if op.QueuedSend? && c.sock.shut && c.state != Disconnected then 1 else 0)
  {
    hide RegRun, Acts, SendInLoop, HandleEvent;
    match op
    case Establish(acts) =>
      assert Control(Established(c));
      EstablishedTail(c);
      ActsAreQuiet(Established(c), acts);
    case User(act) => ActIsQuiet(c, act);
    case QueuedSend(msg, w) => SendIsQuiet(c, msg, w);
    case Dispatch(e) =>
      EventCloses(c, e);
      EventKeepsControl(c, e);
    case Destroy => DestroyedTail(c);
  }
}
