/** The two byte streams of a connection and its high-water callbacks, over every run. */
module ConnectionStreams {
  import opened Options
  import BB = ByteBuffers
  import opened Epoll
  import opened Connections

  /** Compaction is as meant, or whenever an append of the run compacted it had the one right length. */
  predicate Exact(c: Conn) {
    c.cfg.compaction == BB.AsMeant || !c.log.spoiled
  }

  /** Sent and still buffered is what was accepted; consumed and still buffered is what was received. */
  predicate Streams(c: Conn) {
    && c.sock.sent + c.out.Contents() == c.log.accepted
    && c.log.consumed + c.inp.Contents() == c.log.received
  }

  /** The high-water functors among those queued, by the size they report. */
  function HighWaters(queued: seq<Queued>): seq<nat> {
    if queued == [] then []
    else
      var last := queued[|queued| - 1];
      HighWaters(queued[..|queued| - 1]) + (if last.HighWater? then [last.size] else [])
  }

  /** The sizes at which a history of sizes goes from below the mark to the mark or above. */
  function Crossings(mark: nat, sizes: seq<nat>): seq<nat> {
    if |sizes| < 2 then []
    else
      var n := |sizes| - 1;
      Crossings(mark, sizes[..n]) + (if sizes[n - 1] < mark <= sizes[n] then [sizes[n]] else [])
  }

  /** The high-water functors queued are exactly the upward crossings of the size history. */
  predicate WatersOf(cfg: Config, sizes: seq<nat>, queued: seq<Queued>) {
    HighWaters(queued) == if cfg.onHighWater then Crossings(cfg.mark, sizes) else []
  }

  predicate Waters(c: Conn) {
    && c.log.sizes != [] && c.log.sizes[|c.log.sizes| - 1] == c.out.Readable()
    && WatersOf(c.cfg, c.log.sizes, c.queued)
  }

  /** After some append or read a stream was out of order, or the copy left its vector. */
  predicate Tainted(c: Conn) {
    c.broken || !c.log.aligned
  }

  predicate Data(c: Conn) {
    if Exact(c) then !Tainted(c) && Streams(c) && Waters(c) else Tainted(c)
  }

  /** History only grows. */
  predicate Follows(c: Conn, d: Conn) {
    d.cfg == c.cfg && (c.log.spoiled ==> d.log.spoiled) && (Tainted(c) ==> Tainted(d))
  }

  /** A size that does not cross the mark adds no callback; one that does adds its own. */
  lemma SizeKeepsWaters(cfg: Config, sizes: seq<nat>, queued: seq<Queued>, size: nat)
    requires sizes != [] && WatersOf(cfg, sizes, queued)
    ensures WatersOf(cfg, sizes + [size],
                     if cfg.onHighWater && sizes[|sizes| - 1] < cfg.mark <= size
                     then queued + [HighWater(size)] else queued)
  {}

  /** The high-water test of sendInLoop and the size history move together. */
  lemma AppendedKeepsWaters(c: Conn, a: BB.ValidBuf, len: nat, spoils: bool)
    requires Waters(c) && a.Readable() == c.out.Readable() + len
    ensures Waters(Appended(NoteHighWater(c, len), Some(a), spoils))
  {
    hide RegStep, WatersOf;
    SizeKeepsWaters(c.cfg, c.log.sizes, c.queued, a.Readable());
  }

  /** An append adds its bytes exactly when it is as meant or does not spoil. */
  lemma AppendExactIff(v: BB.Compaction, b: BB.ValidBuf, rest: seq<Byte>)
    ensures var a := BB.Append(v, b, rest);
            a.Some? && a.value.Contents() == b.Contents() + rest <==> v == BB.AsMeant || !Spoils(b, rest)
    ensures v == BB.AsMeant || !Spoils(b, rest) ==>
              BB.Append(v, b, rest).value.Readable() == b.Readable() + |rest|
  {
    hide BB.Append, BB.Harmless;
    BB.AppendAsMeant(b, rest);
    BB.ExactStepIffHarmless(b, BB.OpAppend(rest));
    var a := BB.Append(v, b, rest);
    if a.Some? && a.value.Contents() == b.Contents() + rest {
      assert a.value.Readable() == |a.value.Contents()| == |b.Contents()| + |rest|;
    }
  }

  /** What follows a common beginning is the same exactly when the whole is. */
  lemma SameAfter(first: seq<Byte>, a: seq<Byte>, b: seq<Byte>)
    ensures first + a == first + b <==> a == b
  {
    assert (first + a)[|first|..] == a && (first + b)[|first|..] == b;
  }

  lemma RestKeepsData(c: Conn, rest: seq<Byte>)
    requires Exact(c) && !Tainted(c) && Waters(c)
    requires c.sock.sent + c.out.Contents() + rest == c.log.accepted
    requires c.log.consumed + c.inp.Contents() == c.log.received
    ensures Data(BufferRest(c, rest))
  {
    hide RegStep, BB.Append, Waters, Spoils;
    var a := BB.Append(c.cfg.compaction, c.out, rest);
    var spoils := Spoils(c.out, rest);
    var d := Appended(NoteHighWater(c, |rest|), a, spoils);
    assert d == BufferRest(c, rest);
    AppendExactIff(c.cfg.compaction, c.out, rest);
    assert c.sock.sent + c.out.Contents() + rest == c.sock.sent + (c.out.Contents() + rest);
    if a.Some? {
      SameAfter(c.sock.sent, a.value.Contents(), c.out.Contents() + rest);
    }
    if Exact(d) {
      AppendedKeepsWaters(c, a.value, |rest|, spoils);
    }
  }

  /** A direct write: what the socket took and what is left make up the message. */
  lemma TryWriteKeepsData(c: Conn, msg: seq<Byte>, w: WriteResult)
    requires Data(c) && Exact(c) && WritesDirectly(c) && LegalWrite(c, |msg|, w)
    ensures var c1 := TryWrite(c, msg, w);
            var wrote := if w.Wrote? then w.n else 0;
            && Exact(c1) && !Tainted(c1) && Waters(c1)
            && c1.sock.sent + c1.out.Contents() + msg[wrote..] == c1.log.accepted + msg
            && c1.log.consumed + c1.inp.Contents() == c1.log.received
            && (w.WriteFailed? ==> Streams(c1))
  {
    hide WatersOf;
    CompleteKeepsWaters(c.cfg, c.log.sizes, c.queued);
    assert c.out.Contents() == [] && c.sock.sent + [] == c.sock.sent == c.log.accepted;
    if w.Wrote? {
      assert msg[..w.n] + msg[w.n..] == msg;
      assert c.sock.sent + msg[..w.n] + [] + msg[w.n..] == c.sock.sent + (msg[..w.n] + msg[w.n..]);
    } else {
      assert msg[0..] == msg;
    }
  }

  /** A write-complete callback is no high-water callback. */
  lemma CompleteKeepsWaters(cfg: Config, sizes: seq<nat>, queued: seq<Queued>)
    requires WatersOf(cfg, sizes, queued)
    ensures WatersOf(cfg, sizes, queued + [WriteComplete])
  {}

  lemma RestFollows(c: Conn, rest: seq<Byte>)
    ensures Follows(c, BufferRest(c, rest))
  {
    hide RegStep, BB.Append, Spoils;
  }

  lemma SendFollows(c: Conn, msg: seq<Byte>, w: WriteResult)
    requires WritesDirectly(c) ==> LegalWrite(c, |msg|, w)
    ensures Follows(c, SendInLoop(c, msg, w))
  {
    hide BufferRest;
    if c.state != Disconnected {
      var wrote := if WritesDirectly(c) && w.Wrote? then w.n else 0;
      var c1 := if WritesDirectly(c) then TryWrite(c, msg, w) else c;
      RestFollows(c1.(log := c1.log.(accepted := c1.log.accepted + msg)), msg[wrote..]);
    }
  }

  lemma SendKeepsData(c: Conn, msg: seq<Byte>, w: WriteResult)
    requires Data(c)
    requires WritesDirectly(c) ==> LegalWrite(c, |msg|, w)
    ensures Data(SendInLoop(c, msg, w))
  {
    hide WatersOf, BufferRest;
    if Exact(c) && c.state != Disconnected {
      var direct := WritesDirectly(c);
      var wrote := if direct && w.Wrote? then w.n else 0;
      var c1 := if direct then TryWrite(c, msg, w) else c;
      if direct {
        TryWriteKeepsData(c, msg, w);
      }
      if !(direct && w.WriteFailed? && (w.errno == BrokenPipe || w.errno == ConnReset)) {
        var c2 := c1.(log := c1.log.(accepted := c1.log.accepted + msg));
        assert c2.sock.sent + c2.out.Contents() + msg[wrote..] == c2.log.accepted;
        if wrote < |msg| {
          RestKeepsData(c2, msg[wrote..]);
        }
      }
    } else {
      SendFollows(c, msg, w);
    }
  }

  lemma DrainedKeepsData(c: Conn)
    requires Data(c)
    ensures Data(Drained(c))
  {
    hide RegStep, WatersOf;
    if Exact(c) {
      CompleteKeepsWaters(c.cfg, c.log.sizes, c.queued);
    }
  }

  lemma AfterWriteKeepsData(c: Conn, n: nat)
    requires Exact(c) && !Tainted(c) && Waters(c) && 0 < n <= c.out.Readable()
    requires c.sock.sent + c.out.Contents()[n..] == c.log.accepted
    requires c.log.consumed + c.inp.Contents() == c.log.received
    ensures Data(AfterWrite(c, n))
  {
    hide Drained, WatersOf;
    var out := BB.Retrieve(c.out, n);
    var c1 := c.(out := out, log := c.log.(sizes := c.log.sizes + [out.Readable()]));
    SizeKeepsWaters(c.cfg, c.log.sizes, c.queued, out.Readable());
    assert Data(c1);
    DrainedKeepsData(c1);
  }

  lemma AfterWriteFollows(c: Conn, n: nat)
    ensures var d := AfterWrite(c, n);
            Follows(c, d) && (Exact(d) <==> Exact(c)) && (Tainted(d) <==> Tainted(c))
  {
    hide RegStep;
  }

  lemma WriteKeepsData(c: Conn, w: WriteResult)
    requires Data(c)
    requires IsWriting(c) ==> LegalWrite(c, c.out.Readable(), w)
    ensures Data(HandleWrite(c, w))
  {
    hide RegStep, WatersOf, AfterWrite;
    if IsWriting(c) && w.Wrote? && w.n > 0 && Exact(c) {
      var all := c.out.Contents();
      var c1 := WriteCall(c, all, w);
      assert all == all[..w.n] + all[w.n..];
      assert c1.sock.sent + all[w.n..] == c.sock.sent + all;
      AfterWriteKeepsData(c1, w.n);
    } else if IsWriting(c) && w.Wrote? {
      AfterWriteFollows(WriteCall(c, c.out.Contents(), w), w.n);
    }
  }

  lemma ActKeepsData(c: Conn, act: UserAct)
    requires Data(c) && LegalAct(c, act)
    ensures Data(Act(c, act))
  {
    hide RegStep, WatersOf, SendInLoop;
    match act
    case Send(msg, w) =>
      if c.state == Connected {
        SendKeepsData(c, msg, w);
      }
    case CallShutdown =>
    case Take(n) =>
      var all := c.inp.Contents();
      var k := if n < |all| then n else |all|;
      assert all == all[..k] + all[k..];
  }

  lemma {:induction false} ActsKeepData(c: Conn, acts: seq<UserAct>)
    requires Data(c) && LegalActs(c, acts)
    ensures Data(Acts(c, acts))
    decreases |acts|
  {
    if acts != [] {
      ActKeepsData(c, acts[0]);
      ActsKeepData(Act(c, acts[0]), acts[1..]);
    }
  }

  /** A read adds its bytes exactly when it is as meant or does not spoil. */
  lemma ReadExactIff(v: BB.Compaction, b: BB.ValidBuf, res: BB.ReadResult)
    requires BB.LegalRead(b, res)
    ensures var r := BB.ReadFd(v, b, res);
            r.Some? && r.value.Contents() == b.Contents() + (if res.Got? then res.bytes else [])
            <==> v == BB.AsMeant || !ReadSpoils(b, res)
  {
    hide BB.ReadFd, BB.Harmless;
    BB.ReadFdAsMeant(b, res);
    BB.ExactStepIffHarmless(b, BB.OpReadFd(res));
    assert b.Contents() + [] == b.Contents();
  }

  lemma ReceiveKeepsData(c: Conn, res: BB.ReadResult)
    requires Data(c) && BB.LegalRead(c.inp, res)
    ensures Data(Receive(c, res))
  {
    hide BB.ReadFd, ReadSpoils, WatersOf;
    if Exact(c) {
      var bytes := if res.Got? then res.bytes else [];
      var r := BB.ReadFd(c.cfg.compaction, c.inp, res);
      ReadExactIff(c.cfg.compaction, c.inp, res);
      assert c.log.received + bytes == c.log.consumed + (c.inp.Contents() + bytes);
      assert res.Failed? ==> c.log.received + bytes == c.log.received;
      if r.Some? {
        SameAfter(c.log.consumed, r.value.Contents(), c.inp.Contents() + bytes);
      }
    }
  }

  /** The calls that touch neither buffer nor stream. */
  lemma OtherCallsKeepData(c: Conn)
    requires Data(c)
    ensures Data(HandleClose(c)) && Data(Established(c)) && Data(Destroyed(c))
  {
    hide RegStep, WatersOf;
  }

  lemma ReadKeepsData(c: Conn, res: BB.ReadResult, acts: seq<UserAct>)
    requires Data(c) && LegalHandleRead(c, res, acts)
    ensures Data(HandleRead(c, res, acts))
  {
    hide Data, Receive, HandleClose, Acts;
    ReceiveKeepsData(c, res);
    OtherCallsKeepData(Receive(c, res));
    if res.Got? && res.bytes != [] {
      ActsKeepData(Receive(c, res), acts);
    }
  }

  lemma EventKeepsData(c: Conn, e: Event)
    requires Data(c) && LegalEvent(c, e)
    ensures Data(HandleEvent(c, e))
  {
    hide Data, HandleClose, HandleRead, HandleWrite, LegalHandleRead;
    OtherCallsKeepData(c);
    if e.mask.inp || e.mask.pri {
      ReadKeepsData(EventClose(c, e), e.res, e.acts);
    }
    if e.mask.out {
      WriteKeepsData(EventRead(c, e), e.w);
    }
  }

  lemma StepKeepsData(c: Conn, op: Op)
    requires Data(c) && LegalOp(c, op)
    ensures Data(Step(c, op))
  {
    hide Data, Established, Destroyed, SendInLoop, HandleEvent, LegalEvent, Act;
    OtherCallsKeepData(c);
    match op
    case Establish(acts) => ActsKeepData(Established(c), acts);
    case User(act) => ActKeepsData(c, act);
    case QueuedSend(msg, w) => SendKeepsData(c, msg, w);
    case Dispatch(e) => EventKeepsData(c, e);
    case Destroy =>
  }

  lemma {:induction false} RunKeepsData(c: Conn, ops: seq<Op>)
    requires Data(c) && LegalRun(c, ops)
    ensures Data(Run(c, ops))
    decreases |ops|
  {
    if ops != [] {
      StepKeepsData(c, ops[0]);
      RunKeepsData(Step(c, ops[0]), ops[1..]);
    }
  }
}
