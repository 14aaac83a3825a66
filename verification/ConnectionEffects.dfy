/**
  What the calls of one connection do, said without the handlers: which callback runs and on what,
  where the bytes of a read, a retrieve and a write go, and that over a run nothing read is lost.
*/
module ConnectionEffects {
  import BB = ByteBuffers
  import opened Epoll
  import opened Connections
  import opened ConnectionProperties
  import opened ConnectionStreams
  import opened ConnectionTheorems

  /** A callback does one thing after another. */
  lemma {:induction false} CallbackInSequence(c: Conn, first: seq<UserAct>, second: seq<UserAct>)
    requires LegalActs(c, first) && LegalActs(Acts(c, first), second)
    ensures LegalActs(c, first + second) && Acts(c, first + second) == Acts(Acts(c, first), second)
    ensures forall act | first == [act] :: Acts(c, first) == Act(c, act)
    decreases |first|
  {
    hide Act, LegalAct;
    if first == [] {
      assert first + second == second;
    } else {
      assert (first + second)[0] == first[0] && (first + second)[1..] == first[1..] + second;
      CallbackInSequence(Act(c, first[0]), first[1..], second);
    }
  }

  /** While connected a send does the same from the loop thread as from another; otherwise user code sends nothing. */
  lemma SendFromAnyThread(c: Conn, msg: seq<Byte>, w: WriteResult)
    requires LegalOp(c, User(Send(msg, w)))
    ensures c.state == Connected && c.log.ups > 0 ==>
              LegalOp(c, QueuedSend(msg, w)) && Step(c, User(Send(msg, w))) == Step(c, QueuedSend(msg, w))
    ensures c.state != Connected ==> Step(c, User(Send(msg, w))) == c
  {
    hide SendInLoop;
  }

  /** What user code takes from the input buffer is consumed, from the front and no more than there is. */
  lemma TakenIsConsumed(c: Conn, n: nat)
    ensures var all, d := c.inp.Contents(), Act(c, Take(n));
            var k := if n < |all| then n else |all|;
            && LegalAct(c, Take(n))
            && d.log.consumed == c.log.consumed + all[..k] && d.inp.Contents() == all[k..]
  {}

  /** The same report with another callback behind it, and without EPOLLOUT. */
  function ReadOnly(e: Event, acts: seq<UserAct>): Event {
    e.(acts := acts, mask := e.mask.(out := false))
  }

  /**
    A report with EPOLLIN or EPOLLPRI and bytes runs the message callback once, whatever it does, on
    the connection with the bytes received; a report that closes does so before.
  */
  lemma MessageCallbackRuns(c: Conn, e: Event)
    requires LegalEvent(c, e) && (e.mask.inp || e.mask.pri) && e.res.Got? && e.res.bytes != []
    ensures LegalEvent(c, ReadOnly(e, [])) && LegalEvent(c, ReadOnly(e, e.acts))
    ensures var r := HandleEvent(c, ReadOnly(e, []));
            LegalActs(r, e.acts) && HandleEvent(c, ReadOnly(e, e.acts)) == Acts(r, e.acts)
  {
    hide Act, LegalAct, BB.ReadFd, ReadSpoils, RegStep;
  }

  /** EPOLLOUT writes last: on what the rest of the report has made of the connection. */
  lemma WriteCallbackRuns(c: Conn, e: Event)
    requires LegalEvent(c, e) && e.mask.out
    ensures LegalEvent(c, ReadOnly(e, e.acts))
    ensures var r := HandleEvent(c, ReadOnly(e, e.acts));
            var d := HandleEvent(c, e);
            if r.chan.events.out && e.w.Wrote? then d.sock.sent == r.sock.sent + r.out.Contents()[..e.w.n]
            else d.sock == r.sock && d.out == r.out && d.state == r.state
  {
    hide Acts, LegalActs, BB.ReadFd, ReadSpoils, RegStep, BB.Retrieve;
  }

  /** handleWrite moves what the socket took from the output buffer to the socket, and nothing else. */
  lemma WriteMovesOutput(c: Conn, w: WriteResult)
    requires c.chan.events.out ==> LegalWrite(c, c.out.Readable(), w)
    ensures var d := HandleWrite(c, w);
            var n := if c.chan.events.out && w.Wrote? then w.n else 0;
            && d.sock.sent == c.sock.sent + c.out.Contents()[..n] && d.out.Contents() == c.out.Contents()[n..]
            && (n == 0 ==> d.chan == c.chan && d.queued == c.queued && d.sock == c.sock && d.state == c.state)
            && d.inp == c.inp && d.log.accepted == c.log.accepted
            && d.log.received == c.log.received && d.log.consumed == c.log.consumed
  {
    hide RegStep;
  }

  /** The callback of a new connection runs once it is registered for reading. */
  lemma ConnectionCallbackRuns(c: Conn, acts: seq<UserAct>)
    requires LegalOp(c, Establish(acts))
    ensures var up := Step(c, Establish([]));
            && up.state == Connected && up.log.ups == c.log.ups + 1
            && LegalActs(up, acts) && Step(c, Establish(acts)) == Acts(up, acts)
  {
    hide Act, LegalAct, RegStep;
  }

  /** What the reads of a run delivered, in order. */
  function Delivered(ops: seq<Op>): seq<Byte> {
    if ops == [] then []
    else
      (if ops[0].Dispatch? && (ops[0].e.mask.inp || ops[0].e.mask.pri) && ops[0].e.res.Got?
       then ops[0].e.res.bytes else [])
      + Delivered(ops[1..])
  }

  /** A report with EPOLLIN or EPOLLPRI receives exactly what readv delivered; no other report receives. */
  lemma ReadIsReceived(c: Conn, e: Event)
    requires Control(c) && LegalEvent(c, e) && !HandleEvent(c, e).broken
    ensures HandleEvent(c, e).log.received ==
              c.log.received + (if (e.mask.inp || e.mask.pri) && e.res.Got? then e.res.bytes else [])
  {
    hide RegRun, Acts, HandleWrite, BB.ReadFd, ReadSpoils, HasDrained;
    if e.mask.hup && !e.mask.inp {
      CloseKeepsControl(c);
    }
    CloseReadsNothing(c);
    var c1, c2 := EventClose(c, e), EventRead(c, e);
    if e.mask.inp || e.mask.pri {
      ReceivedOrBroken(c1, e);
      ReadKeepsControl(c1, e.res, e.acts);
    }
    if e.mask.out {
      WriteIsQuiet(c2, e.w);
      if c2.broken {
        WriteKeepsBroken(c2, e.w);
      }
    }
    assert c.log.received + [] == c.log.received;
  }

  lemma ReceivedOrBroken(c: Conn, e: Event)
    requires Control(c) && LegalHandleRead(c, e.res, e.acts)
    ensures var d := HandleRead(c, e.res, e.acts);
            d.broken || d.log.received == c.log.received + (if e.res.Got? then e.res.bytes else [])
  {
    hide RegRun, Acts, LegalActs, BB.ReadFd, ReadSpoils, HasDrained, HandleClose;
    var r := Receive(c, e.res);
    assert SameControl(c, r);
    CloseReadsNothing(r);
    if e.res.Got? && e.res.bytes != [] {
      ActsAreQuiet(r, e.acts);
      if r.broken {
        ActsKeepBroken(r, e.acts);
      }
    }
    assert c.log.received + [] == c.log.received;
  }

  lemma StepKeepsBroken(c: Conn, op: Op)
    requires c.broken && LegalOp(c, op)
    ensures Step(c, op).broken
  {
    hide Act, SendInLoop, HandleWrite, BB.ReadFd, RegStep, ReadSpoils;
    match op
    case Establish(acts) => ActsKeepBroken(Established(c), acts);
    case User(act) => ActKeepsBroken(c, act);
    case QueuedSend(msg, w) => SendKeepsBroken(c, msg, w);
    case Dispatch(e) =>
      var c1 := EventClose(c, e);
      if (e.mask.inp || e.mask.pri) && e.res.Got? && e.res.bytes != [] {
        ActsKeepBroken(Receive(c1, e.res), e.acts);
      }
      if e.mask.out {
        WriteKeepsBroken(EventRead(c, e), e.w);
      }
    case Destroy =>
  }

  lemma SendKeepsBroken(c: Conn, msg: seq<Byte>, w: WriteResult)
    requires c.broken && (WritesDirectly(c) ==> LegalWrite(c, |msg|, w))
    ensures SendInLoop(c, msg, w).broken
  {
    hide RegStep, BB.Append, Spoils;
  }

  lemma {:induction false} RunKeepsBroken(c: Conn, ops: seq<Op>)
    requires c.broken && LegalRun(c, ops)
    ensures Run(c, ops).broken
    decreases |ops|
  {
    hide Step, LegalOp;
    if ops != [] {
      StepKeepsBroken(c, ops[0]);
      RunKeepsBroken(Step(c, ops[0]), ops[1..]);
    }
  }

  lemma StepReceives(c: Conn, op: Op)
    requires Control(c) && LegalOp(c, op) && !Step(c, op).broken
    ensures Step(c, op).log.received == c.log.received + Delivered([op])
  {
    hide RegRun, Acts, SendInLoop, HandleEvent, LegalEvent, Act;
    assert [op][1..] == [] && Delivered([op]) + [] == Delivered([op]) && c.log.received + [] == c.log.received;
    match op
    case Establish(acts) =>
      assert Control(Established(c));
      ActsAreQuiet(Established(c), acts);
    case User(act) => ActIsQuiet(c, act);
    case QueuedSend(msg, w) => SendIsQuiet(c, msg, w);
    case Dispatch(e) => ReadIsReceived(c, e);
    case Destroy =>
  }

  lemma {:induction false} ReadsFrom(c: Conn, ops: seq<Op>)
    requires Control(c) && LegalRun(c, ops) && !Run(c, ops).broken
    ensures Run(c, ops).log.received == c.log.received + Delivered(ops)
    decreases |ops|
  {
    hide Step, LegalOp;
    if ops != [] {
      var c1 := Step(c, ops[0]);
      if c1.broken {
        RunKeepsBroken(c1, ops[1..]);
      }
      StepReceives(c, ops[0]);
      StepKeepsControl(c, ops[0]);
      ReadsFrom(c1, ops[1..]);
      assert [ops[0]][1..] == [];
      assert Delivered(ops) == Delivered([ops[0]]) + Delivered(ops[1..]);
    }
  }

  /**
    Nothing read is lost: over every run that is as meant, or whose copies stay inside their vectors,
    what was received is what all the reads of the run delivered, in order; with ByteStreams, so
    are the bytes consumed followed by the readable input when the streams are in order.
  */
  lemma ReadsAreReceived(cfg: Config, ops: seq<Op>)
    requires LegalRun(NewConn(cfg), ops)
    ensures var c := Run(NewConn(cfg), ops);
            && (!c.broken ==> c.log.received == Delivered(ops))
            && (cfg.compaction == BB.AsMeant ==> !c.broken && c.log.consumed + c.inp.Contents() == Delivered(ops))
  {
    NewConnIsGood(cfg);
    ByteStreams(cfg, ops);
    RunTail(NewConn(cfg), ops);
    if !Run(NewConn(cfg), ops).broken {
      ReadsFrom(NewConn(cfg), ops);
    }
  }

  /** A message callback that takes all it finds, as the echo server's does, consumes all that was received. */
  lemma TakingAllConsumesAll(c: Conn, e: Event, n: nat)
    requires Good(c) && c.cfg.compaction == BB.AsMeant && LegalEvent(c, e)
    requires (e.mask.inp || e.mask.pri) && e.res.Got? && e.res.bytes != [] && e.acts == [Take(n)]
    requires c.inp.Readable() + |e.res.bytes| <= n
    ensures var d := HandleEvent(c, e);
            d.inp.Contents() == [] && d.log.consumed == d.log.received == c.log.received + e.res.bytes
  {
    hide Control, RegRun, HandleEvent, LegalEvent, Act, WatersOf;
    MessageCallbackRuns(c, e);
    var r := HandleEvent(c, ReadOnly(e, []));
    var d := HandleEvent(c, ReadOnly(e, e.acts));
    assert e.acts[1..] == [];
    TakenIsConsumed(r, n);
    EventAsMeant(c, ReadOnly(e, []));
    EventAsMeant(c, e);
    ReadIsReceived(c, ReadOnly(e, []));
    ReadIsReceived(c, e);
    InputAfterRead(c, e);
    ReadTakesNothing(c, e);
    assert |r.inp.Contents()| == |c.inp.Contents()| + |e.res.bytes| by {
      assert |c.log.consumed| + |c.inp.Contents()| == |c.log.received|;
      assert |r.log.consumed| + |r.inp.Contents()| == |r.log.received|;
    }
    assert d == Act(r, Take(n));
    assert d.inp.Contents() == r.inp.Contents()[|r.inp.Contents()|..];
  }

  lemma ReadTakesNothing(c: Conn, e: Event)
    requires LegalEvent(c, ReadOnly(e, []))
    ensures HandleEvent(c, ReadOnly(e, [])).log.consumed == c.log.consumed
  {
    hide Receive, HandleClose;
    var c1 := EventClose(c, e);
    CloseTakesNothing(c);
    if e.mask.inp || e.mask.pri {
      ReceiveTakesNothing(c1, e.res);
      CloseTakesNothing(Receive(c1, e.res));
    }
  }

  lemma CloseTakesNothing(c: Conn)
    ensures HandleClose(c).log.consumed == c.log.consumed
  {}

  lemma ReceiveTakesNothing(c: Conn, res: BB.ReadResult)
    requires BB.LegalRead(c.inp, res)
    ensures Receive(c, res).log.consumed == c.log.consumed
  {
    hide BB.ReadFd, ReadSpoils;
  }

  /** As meant, an event breaks nothing and leaves the streams in order. */
  lemma EventAsMeant(c: Conn, e: Event)
    requires Control(c) && Data(c) && c.cfg.compaction == BB.AsMeant && LegalEvent(c, e)
    ensures var d := HandleEvent(c, e);
            !d.broken && d.log.consumed + d.inp.Contents() == d.log.received
  {
    hide RegRun, HandleEvent, LegalEvent, Control;
    EventKeepsData(c, e);
    EventCloses(c, e);
  }

  /** EPOLLOUT and the callback leave the rest of the input alone. */
  lemma InputAfterRead(c: Conn, e: Event)
    requires LegalEvent(c, e) && LegalEvent(c, ReadOnly(e, e.acts))
    ensures HandleEvent(c, e).inp == HandleEvent(c, ReadOnly(e, e.acts)).inp
    ensures HandleEvent(c, e).log.consumed == HandleEvent(c, ReadOnly(e, e.acts)).log.consumed
    ensures HandleEvent(c, e).log.accepted == HandleEvent(c, ReadOnly(e, e.acts)).log.accepted
  {
    hide HandleRead, LegalHandleRead, HandleClose, HandleWrite;
    assert EventRead(c, e) == EventRead(c, ReadOnly(e, e.acts));
    if e.mask.out {
      WriteMovesOutput(EventRead(c, e), e.w);
    }
  }

  /** A message callback that answers: the answer is accepted, unless the peer is found gone. */
  lemma AnswerIsAccepted(c: Conn, e: Event, msg: seq<Byte>, w: WriteResult)
    requires Control(c) && c.state == Connected && LegalEvent(c, e) && e.acts == [Send(msg, w)]
    requires e.mask.inp && e.res.Got? && e.res.bytes != []
    ensures HandleEvent(c, e).log.accepted == c.log.accepted + (if Faulted(c, w) then [] else msg)
  {
    hide HandleEvent, LegalEvent, SendInLoop, Control;
    assert e.acts[1..] == [];
    MessageCallbackRuns(c, e);
    InputAfterRead(c, e);
    PlainRead(c, e);
    var r := HandleEvent(c, ReadOnly(e, []));
    AcceptedWholeOrDropped(r, msg, w);
  }

  lemma PlainRead(c: Conn, e: Event)
    requires LegalEvent(c, ReadOnly(e, [])) && e.mask.inp && e.res.Got? && e.res.bytes != []
    ensures var r := HandleEvent(c, ReadOnly(e, []));
            && r.state == c.state && r.chan == c.chan && r.out == c.out && r.sock == c.sock
            && r.log.accepted == c.log.accepted
  {
    hide BB.ReadFd, ReadSpoils, RegStep;
  }
}
