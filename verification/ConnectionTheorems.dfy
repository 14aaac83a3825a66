/** The properties of one connection, stated over every legal run from its constructor. */
module ConnectionTheorems {
  import opened Options
  import BB = ByteBuffers
  import opened Epoll
  import opened Connections
  import opened ConnectionProperties
  import opened ConnectionStreams

  lemma NewConnIsGood(cfg: Config)
    ensures Good(NewConn(cfg)) && Counts(NewConn(cfg))
  {}

  // ---------------------------------------------------------------- the whole invariant, call by call

  /** Everything a connection keeps: control, byte streams and high water, and the traced channel. */
  predicate Good(c: Conn) {
    Control(c) && Data(c) && Traced(c)
  }

  lemma EstablishedIsGood(c: Conn)
    requires Good(c) && c.state == Connecting
    ensures Good(Established(c))
  {
    hide RegRun;
    EstablishedTail(c);
  }

  lemma SendKeepsGood(c: Conn, msg: seq<Byte>, w: WriteResult)
    requires Good(c) && c.state != Connecting
    requires WritesDirectly(c) ==> LegalWrite(c, |msg|, w)
    ensures Good(SendInLoop(c, msg, w))
  {
    hide Control, Data, RegRun, SendInLoop;
    SendKeepsControl(c, msg, w);
    SendKeepsData(c, msg, w);
    SendIsQuiet(c, msg, w);
  }

  lemma WriteKeepsGood(c: Conn, w: WriteResult)
    requires Good(c)
    requires IsWriting(c) ==> LegalWrite(c, c.out.Readable(), w)
    ensures Good(HandleWrite(c, w))
  {
    hide Control, Data, RegRun, HandleWrite;
    WriteKeepsControl(c, w);
    WriteKeepsData(c, w);
    WriteIsQuiet(c, w);
  }

  lemma ActKeepsGood(c: Conn, act: UserAct)
    requires Good(c) && LegalAct(c, act)
    ensures Good(Act(c, act))
  {
    hide Control, Data, RegRun, Act;
    ActKeepsControl(c, act);
    ActKeepsData(c, act);
    ActIsQuiet(c, act);
  }

  lemma ShutdownKeepsGood(c: Conn)
    requires Good(c)
    ensures Good(Shutdown(c))
  {
    hide Shutdown, Good;
    ActIsShutdown(c);
    ActKeepsGood(c, CallShutdown);
  }

  lemma CloseKeepsGood(c: Conn)
    requires Good(c) && c.chan.index == Added
    ensures Good(HandleClose(c))
  {
    hide RegRun;
    CloseKeepsControl(c);
    CloseCloses(c);
  }

  lemma ReceiveKeepsGood(c: Conn, res: BB.ReadResult)
    requires Good(c) && BB.LegalRead(c.inp, res)
    ensures Good(Receive(c, res))
  {
    hide RegRun, BB.ReadFd, ReadSpoils, Data;
    ReceiveKeepsData(c, res);
    assert SameControl(c, Receive(c, res));
  }

  lemma DestroyedIsGood(c: Conn)
    requires Good(c) && (c.state == Connected || c.state == Disconnected)
    ensures Good(Destroyed(c))
  {
    hide RegRun;
    DestroyedTail(c);
    StepKeepsControl(c, Op.Destroy);
    StepKeepsData(c, Op.Destroy);
  }

  /** A copy that has left its vector is never taken back: by user code, or by handleWrite. */
  lemma ActKeepsBroken(c: Conn, act: UserAct)
    requires c.broken && LegalAct(c, act)
    ensures Act(c, act).broken
  {
    hide RegStep, BB.Append, Spoils;
  }

  lemma {:induction false} ActsKeepBroken(c: Conn, acts: seq<UserAct>)
    requires c.broken && LegalActs(c, acts)
    ensures Acts(c, acts).broken
    decreases |acts|
  {
    hide Act;
    if acts != [] {
      ActKeepsBroken(c, acts[0]);
      ActsKeepBroken(Act(c, acts[0]), acts[1..]);
    }
  }

  lemma WriteKeepsBroken(c: Conn, w: WriteResult)
    requires c.broken && (IsWriting(c) ==> LegalWrite(c, c.out.Readable(), w))
    ensures HandleWrite(c, w).broken
  {
    hide RegStep;
  }

  /** Tail holds from any point of a run to its end. */
  lemma {:induction false} RunTail(c: Conn, ops: seq<Op>)
    requires Control(c) && LegalRun(c, ops)
    ensures Tail(c, Run(c, ops))
    decreases |ops|
  {
    hide RegRun;
    if ops != [] {
      StepEffects(c, ops[0]);
      StepKeepsControl(c, ops[0]);
      RunTail(Step(c, ops[0]), ops[1..]);
    }
  }

  // ---------------------------------------------------------------- registration

  /**
    No run of a connection makes epoll_ctl fail: its channel never reaches LOG_FATAL, and the
    operations it makes on the channel contain no misuse in the sense of module Epoll.
  */
  lemma ConnectionNeverFatal(cfg: Config, ops: seq<Op>)
    requires LegalRun(NewConn(cfg), ops)
    ensures var c := Run(NewConn(cfg), ops);
            !c.chan.fatal && !Misuse(cfg.disabling, c.log.ops)
  {
    NewConnIsGood(cfg);
    RunKeepsControl(NewConn(cfg), ops);
    RunTail(NewConn(cfg), ops);
    FatalIffMisuse(cfg.disabling, Run(NewConn(cfg), ops).log.ops);
  }

  /**
    The life of the wakeup channel and of the acceptor's channel (src/EventLoop.cc:43-48,
    src/Acceptor.cc:33-44): reading is enabled any number of times, by each listen again.
  */
  function ListenerOps(listens: nat): seq<ChannelOp> {
    seq(listens, _ => EnableReading) + [DisableAll, Remove]
  }

  /** The operations are the first ones that a connection or a listening channel makes. */
  ghost predicate FromServer(f: Disabling, ops: seq<ChannelOp>) {
    || (exists listens :: ops <= ListenerOps(listens))
    || exists cfg: Config, run: seq<Op> ::
         cfg.disabling == f && LegalRun(NewConn(cfg), run) && ops <= Run(NewConn(cfg), run).log.ops
  }

  lemma {:induction false} ListeningReg(f: Disabling, listens: nat)
    ensures RegRun(f, seq(listens, _ => EnableReading)) ==
              if listens == 0 then UNREGISTERED else Reg(READ_EVENT, Added, Some(READ_EVENT), false)
  {
    if listens > 0 {
      ListeningReg(f, listens - 1);
      assert seq(listens, _ => EnableReading)[..listens - 1] == seq(listens - 1, _ => EnableReading);
    }
  }

  lemma ListenerIsNoMisuse(f: Disabling, listens: nat)
    ensures !Misuse(f, ListenerOps(listens))
  {
    var listening: seq<ChannelOp>, ops := seq(listens, _ => EnableReading), ListenerOps(listens);
    ListeningReg(f, listens);
    assert ops[..listens + 1] == listening + [DisableAll] && (listening + [DisableAll])[..listens] == listening;
    assert !RegRun(f, listening + [DisableAll]).fatal;
    assert !RegRun(f, ops).fatal;
    FatalIffMisuse(f, ops);
  }

  lemma MisuseOfPrefix(f: Disabling, part: seq<ChannelOp>, whole: seq<ChannelOp>)
    requires part <= whole && Misuse(f, part)
    ensures Misuse(f, whole)
  {
    var k :| 0 <= k < |part| && MisusedAt(f, part, k);
    assert whole[..k] == part[..k] && whole[..k + 1] == part[..k + 1];
    assert MisusedAt(f, whole, k);
  }

  lemma FromServerIsNoMisuse(f: Disabling, ops: seq<ChannelOp>)
    requires FromServer(f, ops)
    ensures !Misuse(f, ops)
  {
    hide Misuse, LegalRun, Run, ListenerOps;
    if Misuse(f, ops) {
      if listens :| ops <= ListenerOps(listens) {
        ListenerIsNoMisuse(f, listens);
        MisuseOfPrefix(f, ops, ListenerOps(listens));
      } else {
        var cfg: Config, run: seq<Op> :|
          cfg.disabling == f && LegalRun(NewConn(cfg), run) && ops <= Run(NewConn(cfg), run).log.ops;
        MisuseOfPrefix(f, ops, Run(NewConn(cfg), run).log.ops);
        ConnectionNeverFatal(cfg, run);
      }
      assert false;
    }
  }

  /** A poller with a wakeup channel, an acceptor and any number of connections never reaches LOG_FATAL. */
  lemma PollerOfServerNeverFatal(f: Disabling, trace: seq<PollerOp>)
    requires LegalTrace(f, trace)
    requires forall k | 0 <= k < |trace| && trace[k].On? :: FromServer(f, OpsOf(trace[..k + 1], trace[k].c))
    ensures !PollerRun(f, trace).fatal && Agreement(PollerRun(f, trace))
  {
    hide FromServer, Misuse, PollerRun, LegalTrace, OpsOf, Agreement;
    PollerFatalIffMisuse(f, trace);
    forall k | 0 <= k < |trace|
      ensures !MisuseEndsAt(f, trace, k)
    {
      if trace[k].On? {
        FromServerIsNoMisuse(f, OpsOf(trace[..k + 1], trace[k].c));
      }
    }
  }

  // ---------------------------------------------------------------- shutdown

  /**
    Graceful shutdown: unfinished output implies write interest in every state but
    kDisconnected, and shutdownWrite is called at most once, with nothing left to send.
  */
  lemma GracefulShutdown(cfg: Config, ops: seq<Op>)
    requires LegalRun(NewConn(cfg), ops)
    ensures var c := Run(NewConn(cfg), ops);
            && (c.state != Disconnected && c.out.Contents() != [] ==> IsWriting(c))
            && (c.log.shutdowns == [] || c.log.shutdowns == [0])
            && (c.sock.shut <==> c.log.shutdowns != [])
  {
    NewConnIsGood(cfg);
    RunKeepsControl(NewConn(cfg), ops);
  }

  /** The sends queued by other threads that run after shutdownWrite and before the close. */
  function LateSends(c: Conn, ops: seq<Op>): nat
    requires LegalRun(c, ops)
    decreases |ops|
  {
    if ops == [] then 0
    else (if ops[0].QueuedSend? && c.sock.shut && c.state != Disconnected then 1 else 0)
         + LateSends(Step(c, ops[0]), ops[1..])
  }

  lemma {:induction false} LateWritesAreLateSends(c: Conn, ops: seq<Op>)
    requires Control(c) && LegalRun(c, ops)
    ensures Run(c, ops).log.lateWrites == c.log.lateWrites + LateSends(c, ops)
    decreases |ops|
  {
    if ops != [] {
      StepEffects(c, ops[0]);
      StepKeepsControl(c, ops[0]);
      LateWritesAreLateSends(Step(c, ops[0]), ops[1..]);
    }
  }

  /**
    After shutdownWrite the socket takes no further byte, whatever follows; and write is not
    even called again except by the late sends of other threads, once for each.
  */
  lemma NothingSentAfterShutdown(cfg: Config, before: seq<Op>, after: seq<Op>)
    requires LegalRun(NewConn(cfg), before)
    requires LegalRun(Run(NewConn(cfg), before), after)
    ensures var c := Run(NewConn(cfg), before);
            var d := Run(c, after);
            && (c.sock.shut ==> d.sock == c.sock)
            && d.log.lateWrites == c.log.lateWrites + LateSends(c, after)
  {
    NewConnIsGood(cfg);
    RunKeepsControl(NewConn(cfg), before);
    RunTail(Run(NewConn(cfg), before), after);
    LateWritesAreLateSends(Run(NewConn(cfg), before), after);
  }

  /** With sends and shutdown on the loop thread only, no write follows shutdownWrite. */
  lemma {:induction false} LoopThreadSendsAreNeverLate(c: Conn, ops: seq<Op>)
    requires LegalRun(c, ops) && forall op | op in ops :: !op.QueuedSend?
    ensures LateSends(c, ops) == 0
    decreases |ops|
  {
    if ops != [] {
      LoopThreadSendsAreNeverLate(Step(c, ops[0]), ops[1..]);
    }
  }

  /**
    Completion, with disableWriting as meant: until the close, write interest is exactly
    pending output, and a disconnecting connection has shut its write side exactly when
    nothing is pending.
  */
  lemma ShutdownCompletesAsMeant(cfg: Config, ops: seq<Op>)
    requires LegalRun(NewConn(cfg), ops) && cfg.disabling == MaskAsMeant
    ensures var c := Run(NewConn(cfg), ops);
            && (c.state != Disconnected ==> (IsWriting(c) <==> c.out.Contents() != []))
            && (c.state == Disconnecting ==> (c.sock.shut <==> c.out.Contents() == []))
  {
    NewConnIsGood(cfg);
    RunKeepsControl(NewConn(cfg), ops);
    RunTail(NewConn(cfg), ops);
  }

  /** The handleWrite that drains a disconnecting connection is the one that shuts it, as meant. */
  lemma DrainShutsAsMeant(c: Conn)
    requires Control(c) && c.cfg.disabling == MaskAsMeant && c.state == Disconnecting && IsWriting(c)
    ensures var d := HandleWrite(c, Wrote(c.out.Readable()));
            d.sock.shut && !c.sock.shut && d.log.shutdowns == [0] && d.sock.sent == c.sock.sent + c.out.Contents()
  {}

  lemma RunCons(c: Conn, op: Op, rest: seq<Op>)
    requires LegalOp(c, op) && LegalRun(Step(c, op), rest)
    ensures LegalRun(c, [op] + rest) && Run(c, [op] + rest) == Run(Step(c, op), rest)
  {
    hide Step, LegalOp;
    assert ([op] + rest)[1..] == rest;
  }

  lemma RunOne(c: Conn, op: Op)
    requires LegalOp(c, op)
    ensures LegalRun(c, [op]) && Run(c, [op]) == Step(c, op)
  {
    hide Step, LegalOp;
    assert [op][1..] == [];
    assert LegalRun(Step(c, op), []);
  }

  /** A new connection to which one byte is sent that the socket does not take. */
  lemma BlockedSend(cfg: Config, c: Conn)
    requires c == Established(NewConn(cfg))
    ensures Control(c)
    ensures var act := Send([1], WriteFailed(WouldBlock));
            && LegalAct(c, act)
            && var d := Act(c, act);
               d.cfg == cfg && d.state == Connected && d.out.Contents() == [1]
  {
    BB.AppendAgrees(c.out, [1]);
    BB.AppendAsMeant(c.out, [1]);
  }

  /** A connection told to shut down while output is pending waits for it. */
  lemma BlockedShutdown(c: Conn)
    requires Control(c) && c.state == Connected && c.out.Contents() != []
    ensures var d := Shutdown(c);
            Control(d) && d.state == Disconnecting && IsWriting(d) && !d.sock.shut && d.out == c.out && d.cfg == c.cfg
  {
    ShutdownKeepsControl(c);
  }

  /** The whole of the pending output is taken on an EPOLLOUT report. */
  lemma LastDrain(c: Conn)
    requires Control(c) && c.state == Disconnecting && IsWriting(c) && c.out.Contents() != []
    ensures var e := Event(WRITE_EVENT, BB.Got([]), [], Wrote(c.out.Readable()));
            && LegalEvent(c, e)
            && var d := HandleEvent(c, e);
               && d.state == Disconnecting && d.out.Contents() == []
               && (d.sock.shut <==> c.cfg.disabling == MaskAsMeant)
               && (Deaf(d) <==> c.cfg.disabling == MaskAsWritten)
  {
    hide RegStep, Drained, HasDrained, RegRun;
    var w := Wrote(c.out.Readable());
    DrainAndReadInterest(c);
    WriteKeepsControl(c, w);
    WriteIsQuiet(c, w);
    assert c.chan.kernel.Some?;
  }

  /**
    One run, both forms: a byte is buffered, shutdown is called, the byte drains. As meant the
    write side is shut and reading goes on; as written neither.
  */
  lemma DrainedButNotShut(cfg: Config)
    ensures var e := Event(WRITE_EVENT, BB.Got([]), [], Wrote(1));
            var ops := [Establish([]), User(Send([1], WriteFailed(WouldBlock))), User(CallShutdown), Dispatch(e)];
            && LegalRun(NewConn(cfg), ops)
            && var c := Run(NewConn(cfg), ops);
               && c.state == Disconnecting && c.out.Contents() == []
               && (c.sock.shut <==> cfg.disabling == MaskAsMeant)
               && (Deaf(c) <==> cfg.disabling == MaskAsWritten)
  {
    hide HandleEvent, LegalEvent, Shutdown, SendInLoop, WritesDirectly, Deaf, Control, Established, RegStep;
    var c0 := NewConn(cfg);
    var act := Send([1], WriteFailed(WouldBlock));
    var e := Event(WRITE_EVENT, BB.Got([]), [], Wrote(1));
    var c1 := Established(c0);
    BlockedSend(cfg, c1);
    var c2 := Act(c1, act);
    ActKeepsControl(c1, act);
    BlockedShutdown(c2);
    var c3 := Shutdown(c2);
    LastDrain(c3);
    RunOne(c3, Dispatch(e));
    RunCons(c2, User(CallShutdown), [Dispatch(e)]);
    RunCons(c1, User(act), [User(CallShutdown)] + [Dispatch(e)]);
    RunCons(c0, Establish([]), [User(act)] + ([User(CallShutdown)] + [Dispatch(e)]));
    assert [Establish([])] + ([User(act)] + ([User(CallShutdown)] + [Dispatch(e)])) ==
           [Establish([]), User(act), User(CallShutdown), Dispatch(e)];
  }

  /**
    As written, once output has been buffered shutdownWrite is never called again: what a
    connection has not shut by then it never shuts, however much of it drains.
  */
  lemma NoShutdownOnceBufferedAsWritten(cfg: Config, before: seq<Op>, after: seq<Op>)
    requires cfg.disabling == MaskAsWritten
    requires LegalRun(NewConn(cfg), before)
    requires LegalRun(Run(NewConn(cfg), before), after)
    requires Run(NewConn(cfg), before).log.buffered
    ensures var c := Run(NewConn(cfg), before);
            var d := Run(c, after);
            && d.log.shutdowns == c.log.shutdowns && d.sock.shut == c.sock.shut
            && (Live(d) ==> IsWriting(d))
  {
    NewConnIsGood(cfg);
    var c := Run(NewConn(cfg), before);
    RunKeepsControl(NewConn(cfg), before);
    RunTail(NewConn(cfg), before);
    RunKeepsControl(c, after);
    RunTail(c, after);
  }

  /** As written, a connected connection that has buffered nothing shuts its write side at once. */
  lemma ShutdownCanCome(c: Conn)
    requires Control(c) && c.cfg.disabling == MaskAsWritten && c.state == Connected && !c.log.buffered
    ensures exists ops :: LegalRun(c, ops) && Run(c, ops).sock.shut
  {
    hide Act;
    RunOne(c, User(CallShutdown));
    assert Act(c, CallShutdown) == Shutdown(c) by {
      ActIsShutdown(c);
    }
  }

  lemma ActIsShutdown(c: Conn)
    ensures LegalAct(c, CallShutdown) && Act(c, CallShutdown) == Shutdown(c)
  {
    hide Shutdown;
  }

  /**
    Completion as written, exactly: a disconnecting connection has shut its write side if and only
    if no output of it was ever buffered, drained since or not; and a connected one can still
    come to shut it if and only if none was buffered yet.
  */
  lemma ShutdownAsWrittenIff(cfg: Config, before: seq<Op>)
    requires LegalRun(NewConn(cfg), before) && cfg.disabling == MaskAsWritten
    ensures var c := Run(NewConn(cfg), before);
            && (Live(c) ==> (IsWriting(c) <==> c.log.buffered))
            && (c.state == Disconnecting ==> (c.sock.shut <==> !c.log.buffered))
            && (c.state == Connected ==>
                  ((exists ops :: LegalRun(c, ops) && Run(c, ops).sock.shut) <==> !c.log.buffered))
  {
    hide HasDrained, Act;
    NewConnIsGood(cfg);
    RunKeepsControl(NewConn(cfg), before);
    RunTail(NewConn(cfg), before);
    var c := Run(NewConn(cfg), before);
    if c.state == Connected && !c.log.buffered {
      ShutdownCanCome(c);
    }
    if c.state == Connected && c.log.buffered {
      forall ops | LegalRun(c, ops)
        ensures !Run(c, ops).sock.shut
      {
        NoShutdownOnceBufferedAsWritten(cfg, before, ops);
      }
    }
  }

  /** epoll_wait(2): a report holds registered events, or EPOLLERR or EPOLLHUP. */
  predicate Reported(c: Conn, mask: Mask) {
    c.chan.kernel.Some? && mask.And(c.chan.kernel.value.Not()).(err := false, hup := false) == NONE_EVENT
  }

  predicate ReportedRun(c: Conn, ops: seq<Op>)
    requires LegalRun(c, ops)
    decreases |ops|
  {
    ops == [] ||
    ((ops[0].Dispatch? ==> Reported(c, ops[0].e.mask)) && ReportedRun(Step(c, ops[0]), ops[1..]))
  }

  lemma DeafStepReadsNothing(c: Conn, op: Op)
    requires Control(c) && Deaf(c) && LegalOp(c, op) && (op.Dispatch? ==> Reported(c, op.e.mask))
    ensures Deaf(Step(c, op)) && Step(c, op).log.received == c.log.received
  {
    hide RegRun, HandleWrite, SendInLoop, HandleClose;
    StepEffects(c, op);
    match op
    case User(act) => ActIsQuiet(c, act);
    case QueuedSend(msg, w) => SendIsQuiet(c, msg, w);
    case Dispatch(e) =>
      CloseKeepsControl(c);
      CloseReadsNothing(c);
      if e.mask.out {
        WriteIsQuiet(EventRead(c, e), e.w);
      }
    case Destroy =>
  }

  lemma CloseReadsNothing(c: Conn)
    ensures HandleClose(c).log.received == c.log.received
  {}

  lemma {:induction false} DeafRunReadsNothing(c: Conn, ops: seq<Op>)
    requires Control(c) && Deaf(c) && LegalRun(c, ops) && ReportedRun(c, ops)
    ensures Run(c, ops).log.received == c.log.received
    decreases |ops|
  {
    hide Step;
    if ops != [] {
      DeafStepReadsNothing(c, ops[0]);
      StepKeepsControl(c, ops[0]);
      DeafRunReadsNothing(Step(c, ops[0]), ops[1..]);
    }
  }

  /** The drain leaves a connection without read interest as written, and with it as meant. */
  lemma DrainAndReadInterest(c: Conn)
    requires Control(c) && Live(c) && IsWriting(c) && c.out.Contents() != []
    ensures var d := HandleWrite(c, Wrote(c.out.Readable()));
            && d.out.Contents() == [] && d.log.received == c.log.received
            && (c.cfg.disabling == MaskAsWritten ==> Deaf(d) && IsWriting(d))
            && (c.cfg.disabling == MaskAsMeant ==> d.chan.events.inp && !IsWriting(d))
  {
    hide RegStep;
    DisableWritingReg(c.cfg.disabling, c.chan);
  }

  /**
    Reading stops as written: disableWriting clears read interest, so from the drain of
    buffered output on, whatever follows, a connection receives nothing more.
  */
  lemma ReadingStopsAsWritten(c: Conn, ops: seq<Op>)
    requires Control(c) && Live(c) && IsWriting(c) && c.out.Contents() != [] && c.cfg.disabling == MaskAsWritten
    requires var d := HandleWrite(c, Wrote(c.out.Readable())); LegalRun(d, ops) && ReportedRun(d, ops)
    ensures Run(HandleWrite(c, Wrote(c.out.Readable())), ops).log.received == c.log.received
  {
    hide HandleWrite;
    DrainAndReadInterest(c);
    WriteKeepsControl(c, Wrote(c.out.Readable()));
    DeafRunReadsNothing(HandleWrite(c, Wrote(c.out.Readable())), ops);
  }

  /** Some dispatch of the run calls handleRead. */
  predicate HandlesRead(ops: seq<Op>) {
    exists i | 0 <= i < |ops| :: ops[i].Dispatch? && (ops[i].e.mask.inp || ops[i].e.mask.pri)
  }

  lemma {:induction false} DeafRunHandlesNoRead(c: Conn, ops: seq<Op>)
    requires Control(c) && Deaf(c) && LegalRun(c, ops) && ReportedRun(c, ops)
    ensures !HandlesRead(ops)
    decreases |ops|
  {
    hide Step;
    if ops != [] {
      assert ops[0].Dispatch? ==> !ops[0].e.mask.inp && !ops[0].e.mask.pri;
      DeafStepReadsNothing(c, ops[0]);
      StepKeepsControl(c, ops[0]);
      DeafRunHandlesNoRead(Step(c, ops[0]), ops[1..]);
      assert forall i | 0 < i < |ops| :: ops[i] == ops[1..][i - 1];
    }
  }

  /** A live connection with read interest can be told that it is readable. */
  lemma ReadCanCome(c: Conn)
    requires Control(c) && Live(c) && c.chan.events.inp
    ensures exists ops :: LegalRun(c, ops) && ReportedRun(c, ops) && HandlesRead(ops)
  {
    hide RegStep, Step;
    var e := Event(Mask(true, false, false, false, false), BB.Failed(0), [], Wrote(0));
    var ops := [Dispatch(e)];
    assert LegalEvent(c, e);
    RunOne(c, ops[0]);
    assert Reported(c, e.mask);
    assert ops[1..] == [] && ReportedRun(Step(c, ops[0]), []);
    assert ops[0].Dispatch?;
    assert HandlesRead(ops);
  }

  /**
    Reading as written: in every run a live connection has lost its read interest if and only if
    buffered output of it has drained; and exactly then handleRead is never called again, in
    any continuation that epoll_wait allows.
  */
  lemma ReadingAsWrittenIff(cfg: Config, before: seq<Op>)
    requires LegalRun(NewConn(cfg), before) && cfg.disabling == MaskAsWritten
    requires Live(Run(NewConn(cfg), before))
    ensures var c := Run(NewConn(cfg), before);
            && (Deaf(c) <==> HasDrained(c.log.sizes))
            && (HasDrained(c.log.sizes) <==>
                  !exists ops :: LegalRun(c, ops) && ReportedRun(c, ops) && HandlesRead(ops))
  {
    hide HasDrained;
    NewConnIsGood(cfg);
    RunKeepsControl(NewConn(cfg), before);
    RunTail(NewConn(cfg), before);
    var c := Run(NewConn(cfg), before);
    if HasDrained(c.log.sizes) {
      forall ops | LegalRun(c, ops) && ReportedRun(c, ops)
        ensures !HandlesRead(ops)
      {
        DeafRunHandlesNoRead(c, ops);
      }
    } else {
      ReadCanCome(c);
    }
  }

  // ---------------------------------------------------------------- byte streams and high water

  /**
    Byte streams, exactly: after every append and read of the run both streams were in order and
    inside their vectors if and only if compaction is as meant, or every append and read that
    compacted had the one right length; so a run that never compacts is in order. Then
    the bytes the socket took followed by the readable output are the accepted messages, and
    the bytes consumed followed by the readable input are the bytes received.
  */
  lemma ByteStreams(cfg: Config, ops: seq<Op>)
    requires LegalRun(NewConn(cfg), ops)
    ensures var c := Run(NewConn(cfg), ops);
            && (c.log.aligned && !c.broken <==> cfg.compaction == BB.AsMeant || !c.log.spoiled)
            && (cfg.compaction == BB.AsMeant || !c.log.spoiled ==>
                  && c.sock.sent + c.out.Contents() == c.log.accepted
                  && c.log.consumed + c.inp.Contents() == c.log.received)
  {
    NewConnIsGood(cfg);
    RunKeepsControl(NewConn(cfg), ops);
    RunTail(NewConn(cfg), ops);
    RunKeepsData(NewConn(cfg), ops);
  }

  /** A new connection to which 1000 bytes are sent that the socket does not take. */
  lemma ThousandBuffered(cfg: Config, c: Conn, first: seq<Byte>)
    requires c == Established(NewConn(cfg)) && |first| == 1000
    ensures var act := Send(first, WriteFailed(WouldBlock));
            && LegalAct(c, act)
            && var d := Act(c, act);
               && d.cfg == cfg && d.state == Connected && IsWriting(d) && !d.log.spoiled
               && |d.out.data| == 1032 && d.out.reader == 8 && d.out.writer == 1008
  {
    hide BB.Append, Spoils;
    assert first[0..] == first;
    AppendedInPlace(cfg.compaction, c.out, first);
  }

  lemma AppendedInPlace(v: BB.Compaction, b: BB.ValidBuf, bytes: seq<Byte>)
    requires |bytes| <= b.Writable()
    ensures !Spoils(b, bytes)
    ensures var a := BB.Append(v, b, bytes);
            && a.Some? && |a.value.data| == |b.data|
            && a.value.reader == b.reader && a.value.writer == b.writer + |bytes|
  {}

  /** The socket takes the first half. */
  lemma HalfTaken(c: Conn)
    requires Good(c) && c.state == Connected && IsWriting(c) && !c.log.spoiled
    requires |c.out.data| == 1032 && c.out.reader == 8 && c.out.writer == 1008
    ensures var e := Event(WRITE_EVENT, BB.Got([]), [], Wrote(500));
            && LegalEvent(c, e)
            && var d := HandleEvent(c, e);
               && d.cfg == c.cfg && d.state == Connected && IsWriting(d) && !d.log.spoiled && Good(d)
               && |d.out.data| == 1032 && d.out.reader == 508 && d.out.writer == 1008
  {
    hide Data, RegRun, HasDrained;
    WriteKeepsGood(c, Wrote(500));
  }

  /** A further 100 bytes make the output buffer compact, as written with a wrong length. */
  lemma HundredMore(c: Conn, last: seq<Byte>)
    requires Good(c) && c.state == Connected && IsWriting(c) && !c.log.spoiled && |last| == 100
    requires |c.out.data| == 1032 && c.out.reader == 508 && c.out.writer == 1008
    ensures var act := Send(last, Wrote(0));
            && LegalAct(c, act)
            && var d := Act(c, act);
               d.sock.sent + d.out.Contents() == d.log.accepted <==> c.cfg.compaction == BB.AsMeant
  {
    hide BB.Append, Control, RegRun, WatersOf;
    var act := Send(last, Wrote(0));
    var d := Act(c, act);
    ActKeepsData(c, act);
    assert last[0..] == last;
    assert Spoils(c.out, last);
    BB.AppendAsWritten(c.out, last);
  }

  /**
    One run, both forms: 1000 bytes are buffered, 500 of them drain, 100 more are sent. As written,
    and not as meant, the output is no longer what was accepted.
  */
  lemma OutputOutOfOrder(cfg: Config, first: seq<Byte>, last: seq<Byte>)
    requires |first| == 1000 && |last| == 100
    ensures var e := Event(WRITE_EVENT, BB.Got([]), [], Wrote(500));
            var ops := [Establish([]), User(Send(first, WriteFailed(WouldBlock))), Dispatch(e),
                        User(Send(last, Wrote(0)))];
            && LegalRun(NewConn(cfg), ops)
            && var c := Run(NewConn(cfg), ops);
               c.sock.sent + c.out.Contents() == c.log.accepted <==> cfg.compaction == BB.AsMeant
  {
    hide HandleEvent, LegalEvent, Act, LegalAct, Good, Established, RegStep, WritesDirectly;
    var c0 := NewConn(cfg);
    var act1, act2 := Send(first, WriteFailed(WouldBlock)), Send(last, Wrote(0));
    var e := Event(WRITE_EVENT, BB.Got([]), [], Wrote(500));
    var c1 := Established(c0);
    NewConnIsGood(cfg);
    EstablishedIsGood(c0);
    ThousandBuffered(cfg, c1, first);
    var c2 := Act(c1, act1);
    ActKeepsGood(c1, act1);
    HalfTaken(c2);
    var c3 := HandleEvent(c2, e);
    HundredMore(c3, last);
    RunOne(c3, User(act2));
    RunCons(c2, Dispatch(e), [User(act2)]);
    RunCons(c1, User(act1), [Dispatch(e)] + [User(act2)]);
    RunCons(c0, Establish([]), [User(act1)] + ([Dispatch(e)] + [User(act2)]));
    assert [Establish([])] + ([User(act1)] + ([Dispatch(e)] + [User(act2)])) ==
           [Establish([]), User(act1), Dispatch(e), User(act2)];
  }

  /** Nothing of the connection's output is waiting, and nobody waits to write. */
  predicate OutputIdle(c: Conn) {
    Live(c) && !c.chan.events.out && c.out.Contents() == []
  }

  /** The peer is gone when the message is offered to the socket. */
  predicate Faulted(c: Conn, w: WriteResult) {
    OutputIdle(c) && (w == WriteFailed(BrokenPipe) || w == WriteFailed(ConnReset))
  }

  /**
    sendInLoop on an idle connection writes at once: what the socket takes is sent, a message taken
    whole leaves buffer, channel and history of buffering alone, and what it does not take is
    buffered with write interest.
  */
  lemma IdleSendIsWritten(c: Conn, msg: seq<Byte>, w: WriteResult)
    requires Control(c) && OutputIdle(c) && w.Wrote? && LegalWrite(c, |msg|, w)
    ensures var d := SendInLoop(c, msg, w);
            && d.sock.sent == c.sock.sent + msg[..w.n]
            && (w.n == |msg| ==> d.out == c.out && d.chan == c.chan && d.log.buffered == c.log.buffered)
            && (w.n < |msg| && c.cfg.compaction == BB.AsMeant ==>
                  d.out.Contents() == msg[w.n..] && d.chan.events.out)
  {
    hide BB.Append, RegStep, Spoils;
    AppendExactIff(c.cfg.compaction, c.out, msg[w.n..]);
    WriteInterestIsSet(c);
    assert [] + msg[w.n..] == msg[w.n..];
  }

  lemma WriteInterestIsSet(c: Conn)
    requires Control(c)
    ensures RegStep(c.cfg.disabling, c.chan, EnableWriting).events.out
  {}

  /** An idle connection to which the socket refuses the message buffers all of it, unless the peer is gone. */
  lemma RefusedSendIsBuffered(c: Conn, msg: seq<Byte>, w: WriteResult)
    requires Control(c) && OutputIdle(c) && w.WriteFailed? && LegalWrite(c, |msg|, w)
    requires c.cfg.compaction == BB.AsMeant
    ensures var d := SendInLoop(c, msg, w);
            && d.sock.sent == c.sock.sent
            && d.out.Contents() == (if w.errno == BrokenPipe || w.errno == ConnReset then [] else msg)
  {
    hide BB.Append, RegStep, Spoils;
    AppendExactIff(c.cfg.compaction, c.out, msg);
    assert msg[0..] == msg && [] + msg == msg;
  }

  /** sendInLoop on a connection with output waiting, or waiting to write, leaves the socket alone and queues up. */
  lemma BusySendIsBuffered(c: Conn, msg: seq<Byte>, w: WriteResult)
    requires Live(c) && (c.chan.events.out || c.out.Contents() != [])
    ensures var d := SendInLoop(c, msg, w);
            && d.sock == c.sock && d.log.lateWrites == c.log.lateWrites
            && (c.cfg.compaction == BB.AsMeant ==> d.out.Contents() == c.out.Contents() + msg)
  {
    hide BB.Append, RegStep, Spoils;
    AppendExactIff(c.cfg.compaction, c.out, msg);
    assert msg[0..] == msg && c.out.Contents() + [] == c.out.Contents();
  }

  /**
    A send, by user code on the loop thread or queued by another thread, is accepted whole or not at
    all: not at all when disconnected, or when the peer is found gone, and then no byte of it goes
    anywhere.
  */
  lemma AcceptedWholeOrDropped(c: Conn, msg: seq<Byte>, w: WriteResult)
    requires c.state != Connecting && (OutputIdle(c) ==> LegalWrite(c, |msg|, w))
    ensures var d := SendInLoop(c, msg, w);
            if c.state == Disconnected || Faulted(c, w) then
              d.log.accepted == c.log.accepted && d.sock == c.sock && d.out == c.out && d.queued == c.queued
            else
              d.log.accepted == c.log.accepted + msg
    ensures c.log.ups > 0 ==> Step(c, QueuedSend(msg, w)).log.accepted == SendInLoop(c, msg, w).log.accepted
    ensures Step(c, User(Send(msg, w))).log.accepted ==
              if c.state == Connected && !Faulted(c, w) then c.log.accepted + msg else c.log.accepted
  {
    hide BufferRest;
    if c.state != Disconnected {
      var wrote := if WritesDirectly(c) && w.Wrote? then w.n else 0;
      var c1 := if WritesDirectly(c) then TryWrite(c, msg, w) else c;
      RestAcceptsNothing(c1.(log := c1.log.(accepted := c1.log.accepted + msg)), msg[wrote..]);
    }
  }

  lemma RestAcceptsNothing(c: Conn, rest: seq<Byte>)
    ensures BufferRest(c, rest).log.accepted == c.log.accepted
  {
    hide RegStep, BB.Append, Spoils;
  }

  /**
    Write complete: a call to sendInLoop or handleWrite in which the socket took something queues
    the callback exactly when it leaves everything accepted so far sent.
  */
  lemma WriteCompleteIffAllSent(c: Conn, msg: seq<Byte>, w: WriteResult)
    requires Control(c) && Data(c) && Exact(c) && c.state != Connecting && w.Wrote?
    ensures OutputIdle(c) && LegalWrite(c, |msg|, w) && Exact(SendInLoop(c, msg, w)) ==>
              var d := SendInLoop(c, msg, w);
              WriteComplete in d.queued[|c.queued|..] <==> c.cfg.onWriteComplete && d.sock.sent == d.log.accepted
    ensures c.chan.events.out && LegalWrite(c, c.out.Readable(), w) && w.n > 0 ==>
              var d := HandleWrite(c, w);
              WriteComplete in d.queued[|c.queued|..] <==> c.cfg.onWriteComplete && d.sock.sent == d.log.accepted
  {
    if OutputIdle(c) && LegalWrite(c, |msg|, w) {
      SendQueuesComplete(c, msg, w);
    }
    if IsWriting(c) && LegalWrite(c, c.out.Readable(), w) && w.n > 0 {
      HandleWriteQueuesComplete(c, w);
    }
  }

  /** Two sequences that make up a third: the first is all of it exactly when the second is empty. */
  lemma AllSent(sent: seq<Byte>, left: seq<Byte>, accepted: seq<Byte>)
    requires sent + left == accepted
    ensures sent == accepted <==> left == []
  {}

  lemma SendQueuesComplete(c: Conn, msg: seq<Byte>, w: WriteResult)
    requires Control(c) && Data(c) && Exact(c) && w.Wrote? && WritesDirectly(c) && LegalWrite(c, |msg|, w)
    ensures var d := SendInLoop(c, msg, w);
            && |c.queued| <= |d.queued|
            && (Exact(d) ==>
                  (WriteComplete in d.queued[|c.queued|..] <==> c.cfg.onWriteComplete && d.sock.sent == d.log.accepted))
  {
    hide RegStep, BB.Append, WatersOf;
    var d := SendInLoop(c, msg, w);
    SendKeepsData(c, msg, w);
    if Exact(d) {
      AllSent(d.sock.sent, d.out.Contents(), d.log.accepted);
      if w.n < |msg| {
        var c1 := TryWrite(c, msg, w);
        AppendExactHere(c1.(log := c1.log.(accepted := c1.log.accepted + msg)), msg[w.n..]);
      }
    }
  }

  lemma AppendExactHere(c: Conn, rest: seq<Byte>)
    requires Exact(BufferRest(c, rest)) && rest != []
    ensures BufferRest(c, rest).out.Contents() != []
    ensures var d := BufferRest(c, rest);
            d.queued == c.queued || d.queued == c.queued + [HighWater(c.out.Readable() + |rest|)]
  {
    hide RegStep, BB.Append;
    AppendExactIff(c.cfg.compaction, c.out, rest);
  }

  lemma HandleWriteQueuesComplete(c: Conn, w: WriteResult)
    requires Data(c) && Exact(c) && w.Wrote? && w.n > 0 && IsWriting(c) && LegalWrite(c, c.out.Readable(), w)
    ensures var d := HandleWrite(c, w);
            && |c.queued| <= |d.queued|
            && (WriteComplete in d.queued[|c.queued|..] <==> c.cfg.onWriteComplete && d.sock.sent == d.log.accepted)
  {
    hide RegStep, WatersOf;
    var d := HandleWrite(c, w);
    WriteKeepsData(c, w);
    AllSent(d.sock.sent, d.out.Contents(), d.log.accepted);
  }

  /**
    High water: the callbacks queued, in order and with the sizes they carry, are exactly the
    upward crossings of the mark by the buffered length.
  */
  lemma HighWaterIsCrossings(cfg: Config, ops: seq<Op>)
    requires LegalRun(NewConn(cfg), ops)
    ensures var c := Run(NewConn(cfg), ops);
            cfg.compaction == BB.AsMeant || !c.log.spoiled ==>
              HighWaters(c.queued) == if cfg.onHighWater then Crossings(cfg.mark, c.log.sizes) else []
  {
    NewConnIsGood(cfg);
    RunKeepsControl(NewConn(cfg), ops);
    RunTail(NewConn(cfg), ops);
    RunKeepsData(NewConn(cfg), ops);
  }

  /** In a history that crosses twice, the length was below the mark in between. */
  lemma {:induction false} CrossingsNeedADrop(mark: nat, sizes: seq<nat>, i: nat)
    requires 0 < i <= |sizes| && mark <= sizes[i - 1]
    requires forall j | i <= j < |sizes| :: mark <= sizes[j]
    ensures Crossings(mark, sizes) == Crossings(mark, sizes[..i])
    decreases |sizes|
  {
    if i == |sizes| {
      assert sizes[..i] == sizes;
    } else {
      var n := |sizes| - 1;
      CrossingsNeedADrop(mark, sizes[..n], i);
      assert sizes[..n][..i] == sizes[..i];
    }
  }

  // ---------------------------------------------------------------- callbacks

  /** From the close on, nothing more is dispatched and no callback count moves. */
  lemma {:induction false} ClosedIsFinal(c: Conn, ops: seq<Op>)
    requires Control(c) && c.state == Disconnected && LegalRun(c, ops)
    ensures forall op | op in ops :: !op.Dispatch?
    ensures var d := Run(c, ops);
            && d.state == Disconnected
            && d.log.ups == c.log.ups && d.log.downs == c.log.downs && d.log.closes == c.log.closes
    decreases |ops|
  {
    hide RegStep;
    if ops != [] {
      StepKeepsControl(c, ops[0]);
      match ops[0] {
        case User(act) => ActIsQuiet(c, act);
        case QueuedSend(msg, w) =>
        case Destroy =>
      }
      ClosedIsFinal(Step(c, ops[0]), ops[1..]);
    }
  }

  /** No dispatch of the run closes the connection twice. */
  predicate SingleCloses(ops: seq<Op>) {
    forall op | op in ops && op.Dispatch? :: ClosesOf(op.e) <= 1
  }

  lemma {:induction false} CountsFrom(c: Conn, ops: seq<Op>)
    requires Control(c) && Counts(c) && c.state != Disconnected && LegalRun(c, ops)
    ensures var d := Run(c, ops);
            && d.log.ups <= 1
            && (d.log.downs <= 1 && d.log.closes <= 1 <==> SingleCloses(ops))
            && (SingleCloses(ops) ==> Counts(d))
    decreases |ops|
  {
    hide RegRun, Armed, ShutClean, HandleEvent, LegalEvent, SendInLoop, Acts, Act;
    if ops != [] {
      var c1 := Step(c, ops[0]);
      StepEffects(c, ops[0]);
      StepKeepsControl(c, ops[0]);
      assert ops == [ops[0]] + ops[1..];
      if ops[0].Dispatch? {
        EventCloses(c, ops[0].e);
      }
      if c1.state == Disconnected {
        ClosedIsFinal(c1, ops[1..]);
      } else {
        CountsFrom(c1, ops[1..]);
      }
    }
  }

  /**
    Callbacks: every run makes at most one UP. It makes at most one DOWN and one close exactly
    when no dispatch closes twice, and a dispatch can close twice only on a mask with EPOLLHUP
    and EPOLLPRI and without EPOLLIN. Then the counts are those of the state: one UP once
    established, one DOWN once disconnected.
  */
  lemma CallbackCounts(cfg: Config, ops: seq<Op>)
    requires LegalRun(NewConn(cfg), ops)
    ensures var c := Run(NewConn(cfg), ops);
            && c.log.ups <= 1
            && (c.log.downs <= 1 && c.log.closes <= 1 <==> SingleCloses(ops))
            && ((forall op | op in ops :: Gentle(op)) ==> SingleCloses(ops) && Counts(c))
  {
    NewConnIsGood(cfg);
    CountsFrom(NewConn(cfg), ops);
  }

  /** Such a mask does close a connection twice when the read finds the end of the stream. */
  lemma DoubleCloseHappens(cfg: Config)
    ensures var e := Event(Mask(false, true, false, false, true), BB.Got([]), [], Wrote(0));
            var ops := [Establish([]), Dispatch(e)];
            HupPriWithoutIn(e.mask) && LegalRun(NewConn(cfg), ops) && Run(NewConn(cfg), ops).log.downs == 2
  {
    var e := Event(Mask(false, true, false, false, true), BB.Got([]), [], Wrote(0));
    var ops := [Establish([]), Dispatch(e)];
    var c := Step(NewConn(cfg), ops[0]);
    assert ops[1..] == [Dispatch(e)] && ops[1..][1..] == [];
    assert LegalOp(c, ops[1]);
    var d := Step(c, ops[1]);
    assert LegalRun(d, []) && LegalRun(c, ops[1..]);
    assert Run(c, ops[1..]) == Run(d, []) == d;
  }
}
