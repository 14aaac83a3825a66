/**
  The TcpConnection class of src/TcpConnection.cc: an object with its own two Buffer objects and
  its own Channel on an EPollPoller that it shares with other connections. Every public method
  keeps Valid(), which holds the invariants of one connection (no fatal registration, clean
  shutdown, exact byte streams), and takes View() through its namesake in Connections.
*/
module ConnectionObjects {
  import opened Options
  import BB = ByteBuffers
  import BufferObjects
  import PollerObjects
  import opened Epoll
  import C = Connections
  import opened Connections
  import opened ConnectionProperties
  import ConnectionStreams
  import T = ConnectionTheorems

  class TcpConnection {
    const cfg: Config
    const poller: PollerObjects.EPollPoller
    const channel: PollerObjects.Channel
    const outputBuffer: BufferObjects.Buffer
    const inputBuffer: BufferObjects.Buffer
    var state: State
    var queued: seq<Queued>
    var sock: Socket
    var broken: bool
    ghost var log: Log

    /** The objects that belong to this connection alone. */
    ghost function Own(): set<object>
      reads outputBuffer, inputBuffer
    {
      {this, outputBuffer, outputBuffer.buffer, inputBuffer, inputBuffer.buffer}
    }

    /** The parts fit together, and the channel is one of its poller's. */
    ghost predicate Linked()
      reads Own(), poller, poller.members
    {
      && outputBuffer != inputBuffer && outputBuffer.buffer != inputBuffer.buffer
      && outputBuffer.compaction == cfg.compaction && inputBuffer.compaction == cfg.compaction
      && outputBuffer.Valid() && inputBuffer.Valid()
      && poller.disabling == cfg.disabling && poller.Valid() && channel in poller.members
    }

    ghost function View(): Conn
      requires Linked()
      reads Own(), poller, poller.members
    {
      Conn(cfg, state, poller.See(channel), outputBuffer.View(), inputBuffer.View(), queued, sock, log, broken)
    }

    ghost predicate Valid()
      reads Own(), poller, poller.members
    {
      Linked() && !broken && T.Good(View())
    }

    /** The connection is now c; where a copy of c has left its vector, only that is known. */
    ghost predicate Became(c: Conn)
      reads Own(), poller, poller.members
    {
      if c.broken then broken else Valid() && View() == c
    }

    /** The poller is in order, and what every other channel sees of it is as before. */
    twostate predicate OthersKept()
      reads poller, poller.members
    {
      && poller.members == old(poller.members) && poller.Valid() && !poller.fatal
      && forall d | d in poller.members && d != channel :: poller.See(d) == old(poller.See(d))
    }

    /** A buffer that was replaced was replaced by a new one. */
    twostate predicate BuffersKept()
      reads outputBuffer, inputBuffer
    {
      && (outputBuffer.buffer == old(outputBuffer.buffer) || fresh(outputBuffer.buffer))
      && (inputBuffer.buffer == old(inputBuffer.buffer) || fresh(inputBuffer.buffer))
    }

    /** Whatever this connection did, another one on the same poller is as it was. */
    twostate lemma BystanderKept(other: TcpConnection)
      requires old(other.Valid()) && other.poller == poller && other.channel != channel
      requires OthersKept() && unchanged(old(other.Own()))
      ensures other.Valid() && other.View() == old(other.View())
    {
      hide T.Good, PollerObjects.EPollPoller.Agrees;
    }

    constructor (cfg: Config, poller: PollerObjects.EPollPoller, sockfd: int)
      requires poller.Valid() && !poller.fatal && poller.disabling == cfg.disabling
      requires forall d | d in poller.members :: d.fd != sockfd
      modifies poller`members
      ensures Valid() && View() == NewConn(cfg) && state == Connecting && !sock.shut
      ensures outputBuffer.buffer.Length == 1032 && inputBuffer.buffer.Length == 1032
      ensures this.poller == poller && channel.fd == sockfd && fresh(channel)
      ensures fresh(outputBuffer) && fresh(outputBuffer.buffer) && fresh(inputBuffer) && fresh(inputBuffer.buffer)
      ensures poller.members == old(poller.members) + {channel}
    {
      hide T.Good, BB.NewBuf, PollerObjects.EPollPoller.Agrees;
      this.cfg, this.poller := cfg, poller;
      channel := new PollerObjects.Channel(sockfd);
      outputBuffer := new BufferObjects.Buffer(cfg.compaction, 1024);
      inputBuffer := new BufferObjects.Buffer(cfg.compaction, 1024);
      state, queued, sock, broken, log := Connecting, [], Socket([], false), false, NEW_LOG;
      new;
      poller.Adopt(channel);
      assert View() == NewConn(cfg) by {
        assert inputBuffer.View() == BB.NewBuf(1024) == outputBuffer.View();
      }
      T.NewConnIsGood(cfg);
    }

    /** An interest change that the poller can carry out. */
    method Interest(op: ChannelOp)
      requires Linked() && !RegStep(cfg.disabling, poller.See(channel), op).fatal
      modifies this`log, poller, channel`events, channel`index
      ensures Linked() && View() == C.Interest(old(View()), op) && OthersKept()
    {
      hide RegStep;
      assert !poller.fatal by {
        FatalStays(cfg.disabling, poller.See(channel), op);
      }
      channel.Apply(poller, op);
      log := log.(ops := log.ops + [op]);
    }

    method SendInLoop(message: seq<Byte>, w: WriteResult)
      requires Valid() && state != Connecting
      requires WritesDirectly(View()) ==> LegalWrite(View(), |message|, w)
      modifies Own(), poller, channel`events, channel`index
      ensures Became(C.SendInLoop(old(View()), message, w)) && OthersKept() && BuffersKept()
    {
      hide TryWrite, BufferRest, RegStep, T.Good, Registered, PollerObjects.EPollPoller.Agrees;
      ghost var c := View();
      T.SendKeepsGood(c, message, w);
      GoodIsRegistered(c);
      PollerIsSound(c);
      var nwrote := 0;
      var remaining := |message|;
      var faultError := false;
      if state == Disconnected {
        return;
      }
      var readable := outputBuffer.ReadableBytes();
      if !channel.events.out && readable == 0 {
        nwrote, faultError := WriteNow(message, w);
        remaining := |message| - nwrote;
      }
      assert Registered(View()) by {
        SameRegistered(c, View());
      }
      if !faultError {
        Accept(message, nwrote, remaining);
      }
    }

    /** The message is accepted, and what the socket did not take of it is buffered. */
    method Accept(message: seq<Byte>, nwrote: nat, remaining: nat)
      requires Linked() && !broken && Registered(View()) && Live(View()) && nwrote + remaining == |message|
      modifies Own(), poller, channel`events, channel`index
      ensures var c := old(View()).(log := old(log).(accepted := old(log).accepted + message));
              var d := if remaining > 0 then BufferRest(c, message[nwrote..]) else c;
              if d.broken then broken else Linked() && View() == d
      ensures OthersKept() && BuffersKept()
    {
      hide BufferRest, RegStep, Registered, PollerObjects.EPollPoller.Agrees;
      ghost var c := View();
      PollerIsSound(c);
      log := log.(accepted := log.accepted + message);
      SameRegistered(c, View());
      if remaining > 0 {
        BufferRemaining(message[nwrote..]);
      }
    }

    /** The direct write of sendInLoop. */
    method WriteNow(message: seq<Byte>, w: WriteResult) returns (nwrote: nat, faultError: bool)
      requires Linked() && LegalWrite(View(), |message|, w)
      modifies this`log, this`sock, this`queued
      ensures Linked() && View() == TryWrite(old(View()), message, w)
      ensures View() == old(View()).(log := log, sock := sock, queued := queued) && log.ups == old(log.ups)
      ensures nwrote == (if w.Wrote? then w.n else 0)
      ensures faultError <==> w in {WriteFailed(BrokenPipe), WriteFailed(ConnReset)}
    {
      nwrote, faultError := 0, false;
      log := if sock.shut then log.(lateWrites := log.lateWrites + 1) else log;
      if w.Wrote? {
        nwrote := w.n;
        sock := sock.(sent := sock.sent + message[..nwrote]);
        if |message| - nwrote == 0 && cfg.onWriteComplete {
          queued := queued + [WriteComplete];
        }
      } else if w.errno != WouldBlock {
        if w.errno == BrokenPipe || w.errno == ConnReset {
          faultError := true;
        }
      }
    }

    /** The tail of sendInLoop. */
    method BufferRemaining(rest: seq<Byte>)
      requires Linked() && !broken && Registered(View()) && Live(View())
      modifies Own(), poller, channel`events, channel`index
      ensures var c := BufferRest(old(View()), rest);
              if c.broken then broken else Linked() && View() == c
      ensures OthersKept() && BuffersKept()
    {
      hide BB.Append, RegStep, Appended, Spoils;
      LiveCanChange(View());
      var oldlen := outputBuffer.ReadableBytes();
      if oldlen + |rest| >= cfg.mark && oldlen < cfg.mark && cfg.onHighWater {
        queued := queued + [HighWater(oldlen + |rest|)];
      }
      AppendAndWait(rest);
    }

    /** The append of sendInLoop, then enableWriting if need be. */
    method AppendAndWait(rest: seq<Byte>)
      requires Linked() && !broken && !poller.fatal
      requires !RegStep(cfg.disabling, poller.See(channel), EnableWriting).fatal
      modifies this`log, this`broken, outputBuffer, outputBuffer.buffer, poller, channel`events, channel`index
      ensures var b := old(outputBuffer.View());
              var c := Appended(old(View()), BB.Append(cfg.compaction, b, rest), Spoils(b, rest));
              if c.broken then broken else Linked() && View() == c
      ensures OthersKept() && BuffersKept()
    {
      hide BB.Append, RegStep, C.Interest, Spoils;
      var ok := AppendOutput(rest);
      if ok && !channel.events.out {
        Interest(EnableWriting);
      }
    }

    /** The append of sendInLoop. */
    method AppendOutput(rest: seq<Byte>) returns (ok: bool)
      requires Linked() && !broken
      modifies this`log, this`broken, outputBuffer, outputBuffer.buffer
      ensures var a := BB.Append(cfg.compaction, old(outputBuffer.View()), rest);
              && (ok <==> a.Some?) && (ok <==> !broken)
              && (ok ==>
                    && Linked()
                    && var l := old(log).(spoiled := old(log).spoiled || Spoils(old(outputBuffer.View()), rest));
                       View() == old(View()).(
                                   out := a.value,
                                   log := l.(buffered := true, sizes := l.sizes + [a.value.Readable()],
                                             aligned := l.aligned && sock.sent + a.value.Contents() == l.accepted)))
      ensures BuffersKept()
    {
      hide BB.Append, RegStep, Spoils;
      log := log.(spoiled := log.spoiled || Spoils(outputBuffer.View(), rest));
      ok := outputBuffer.Append(rest);
      if ok {
        log := log.(buffered := true, sizes := log.sizes + [outputBuffer.View().Readable()],
                    aligned := log.aligned && sock.sent + outputBuffer.View().Contents() == log.accepted);
      } else {
        broken := true;
      }
    }

    /** Shuts the write side only when no output is left to send. */
    method ShutdownInLoop()
      requires Linked() && (outputBuffer.View().Contents() != [] ==> channel.events.out)
      modifies this`sock, this`log
      ensures Linked() && View() == C.ShutdownInLoop(old(View()))
      ensures sock.sent == old(sock.sent)
      ensures sock.shut && !old(sock.shut) ==> outputBuffer.View().Contents() == []
    {
      if !channel.events.out {
        sock := sock.(shut := true);
        log := log.(shutdowns := log.shutdowns + [outputBuffer.View().Readable()]);
      }
    }

    /** Only a connected connection is shut down, and never with output left to send. */
    method Shutdown()
      requires Valid()
      modifies this`state, this`sock, this`log
      ensures Valid() && View() == C.Shutdown(old(View()))
      ensures state == (if old(state) == Connected then Disconnecting else old(state))
      ensures sock.sent == old(sock.sent) && (old(state) != Connected ==> sock == old(sock))
      ensures old(state) == Connected && sock.shut ==> outputBuffer.View().Contents() == []
      ensures old(state) == Connected && cfg.disabling == MaskAsMeant ==>
                (sock.shut <==> outputBuffer.View().Contents() == [])
    {
      hide HasDrained, RegRun, ConnectionStreams.Waters, PollerObjects.EPollPoller.Agrees;
      ghost var c := View();
      T.ShutdownKeepsGood(c);
      if state == Connected {
        state := Disconnecting;
        ShutdownInLoop();
      }
    }

    /** From kConnecting: connected, registered for reading with the poller, one UP. */
    method ConnectionEstablished()
      requires Valid() && state == Connecting
      modifies this`state, this`log, poller, channel`events, channel`index
      ensures Valid() && View() == Established(old(View())) && OthersKept()
      ensures state == Connected && log.ups == 1
      ensures poller.See(channel) == Reg(READ_EVENT, Added, Some(READ_EVENT), false)
      ensures channel.fd in poller.channels && poller.channels[channel.fd] == channel
    {
      hide T.Good, RegStep, PollerObjects.EPollPoller.Agrees;
      ghost var c := View();
      T.EstablishedIsGood(c);
      GoodIsRegistered(c);
      FirstReg(cfg.disabling);
      state := Connected;
      Interest(EnableReading);
      log := log.(ups := log.ups + 1);
      assert Linked() && View() == Established(c);
      poller.AddedMeansPresent(channel);
    }

    /** Leaves the channel unknown to the poller; DOWN only if no close came before. */
    method ConnectionDestroyed()
      requires Valid() && (state == Connected || state == Disconnected)
      modifies this`state, this`log, poller, channel`events, channel`index
      ensures Valid() && View() == Destroyed(old(View())) && OthersKept()
      ensures state == Disconnected && channel.index == New
      ensures channel.fd !in poller.channels && channel.fd !in poller.kernel
      ensures log.downs == old(log.downs) + (if old(state) == Connected then 1 else 0)
    {
      hide T.Good, RegStep, PollerObjects.EPollPoller.Agrees;
      ghost var c := View();
      T.DestroyedIsGood(c);
      GoodIsRegistered(c);
      if state == Connected {
        LiveCanChange(c);
        state := Disconnected;
        Interest(DisableAll);
        log := log.(downs := log.downs + 1);
      }
      RemoveIsSafe(cfg.disabling, poller.See(channel));
      Interest(Remove);
      poller.NewMeansAbsent(channel);
    }

    /** The destructor, after connectionDestroyed: the poller forgets the channel, and its fd may be used anew. */
    ghost method Destruct()
      requires Valid() && channel.index == New && state == Disconnected
      modifies poller`members
      ensures poller.Valid() && poller.members == old(poller.members) - {channel}
      ensures forall d | d in poller.members :: d.fd != channel.fd && poller.See(d) == old(poller.See(d))
    {
      poller.Release(channel);
    }

    /** Bytes go out in order, and nothing is sent that was not pending. */
    method HandleWrite(w: WriteResult)
      requires Valid()
      requires channel.events.out ==> LegalWrite(View(), outputBuffer.View().Readable(), w)
      modifies Own(), poller, channel`events, channel`index
      ensures Valid() && View() == C.HandleWrite(old(View()), w) && OthersKept() && BuffersKept()
    {
      hide T.Good, RegStep, AfterWrite, PollerObjects.EPollPoller.Agrees;
      ghost var c := View();
      T.WriteKeepsGood(c, w);
      GoodIsRegistered(c);
      if channel.events.out {
        log := if sock.shut then log.(lateWrites := log.lateWrites + 1) else log;
        var n := if w.Wrote? then w.n else -1;
        if w.Wrote? {
          var bytes := outputBuffer.WriteFd(n);
          sock := sock.(sent := sock.sent + bytes);
        }
        if n > 0 {
          Retire(n);
        }
      }
    }

    /** handleWrite from the point where writeFd has taken n bytes. */
    method Retire(n: nat)
      requires Linked() && Registered(View()) && Live(View()) && channel.events.out
      modifies this`sock, this`log, this`queued, outputBuffer, poller, channel`events, channel`index
      ensures Linked() && View() == AfterWrite(old(View()), n) && OthersKept()
      ensures outputBuffer.buffer == old(outputBuffer.buffer)
    {
      hide RegStep, Drained, BB.Retrieve, PollerObjects.EPollPoller.Agrees;
      LiveCanDisable(View());
      var left := Consume(n);
      if left == 0 {
        Drain();
      }
    }

    /** The retrieve of handleWrite. */
    method Consume(n: nat) returns (left: nat)
      requires Linked()
      modifies this`log, outputBuffer
      ensures var out := BB.Retrieve(old(outputBuffer.View()), n);
              && left == out.Readable() && Linked()
              && View() == old(View()).(out := out, log := old(log).(sizes := old(log).sizes + [left]))
      ensures outputBuffer.buffer == old(outputBuffer.buffer)
    {
      hide BB.Retrieve, PollerObjects.EPollPoller.Agrees;
      RetrieveOutput(n);
      left := outputBuffer.ReadableBytes();
      log := log.(sizes := log.sizes + [left]);
    }

    method RetrieveOutput(n: nat)
      requires Linked()
      modifies outputBuffer
      ensures Linked() && View() == old(View()).(out := BB.Retrieve(old(outputBuffer.View()), n))
      ensures outputBuffer.buffer == old(outputBuffer.buffer)
    {
      hide BB.Retrieve, PollerObjects.EPollPoller.Agrees;
      ghost var c := View();
      outputBuffer.Retrieve(n);
      assert inputBuffer.View() == c.inp && poller.See(channel) == c.chan;
    }

    /** handleWrite once the output buffer is empty. */
    method Drain()
      requires Linked() && outputBuffer.View().Readable() == 0
      requires !RegStep(cfg.disabling, poller.See(channel), DisableWriting).fatal
      modifies this`sock, this`log, this`queued, poller, channel`events, channel`index
      ensures Linked() && View() == Drained(old(View())) && OthersKept()
    {
      hide RegStep, PollerObjects.EPollPoller.Agrees;
      Interest(DisableWriting);
      if cfg.onWriteComplete {
        queued := queued + [WriteComplete];
      }
      if state == Disconnecting {
        ShutdownInLoop();
      }
    }

    /**
      Disconnected, out of the kernel set, one DOWN and one close; the entry in the poller's table
      stays until connectionDestroyed, and buffers and socket are not touched.
    */
    method HandleClose()
      requires Valid() && channel.index == Added
      modifies this`state, this`log, poller, channel`events, channel`index
      ensures Valid() && View() == C.HandleClose(old(View())) && OthersKept()
      ensures state == Disconnected && channel.index == Added
      ensures channel.fd !in poller.kernel && channel.fd in poller.channels
      ensures log.downs == old(log.downs) + 1 && log.closes == old(log.closes) + 1
    {
      hide T.Good, RegStep, PollerObjects.EPollPoller.Agrees;
      ghost var c := View();
      T.CloseKeepsGood(c);
      GoodIsRegistered(c);
      ClearedReg(cfg.disabling, c.chan);
      state := Disconnected;
      assert Linked() && View() == c.(state := Disconnected);
      Interest(DisableAll);
      log := log.(downs := log.downs + 1, closes := log.closes + 1);
      assert Linked() && View() == C.HandleClose(c);
      poller.AddedMeansPresent(channel);
    }

    /** handleRead up to the message callback, which is due exactly when deliver is returned. */
    method HandleRead(res: BB.ReadResult) returns (deliver: bool)
      requires Valid() && channel.index == Added && BB.LegalRead(inputBuffer.View(), res)
      modifies Own(), poller, channel`events, channel`index
      ensures deliver <==> res.Got? && res.bytes != []
      ensures Became(if deliver then Receive(old(View()), res) else C.HandleRead(old(View()), res, []))
      ensures OthersKept() && BuffersKept()
    {
      hide T.Good, RegStep, BB.ReadFd, ReadSpoils, C.HandleClose, PollerObjects.EPollPoller.Agrees;
      ghost var c := View();
      T.ReceiveKeepsGood(c, res);
      GoodIsRegistered(c);
      deliver := res.Got? && |res.bytes| > 0;
      var ok := Fill(res);
      if ok && res.Got? && |res.bytes| == 0 {
        HandleClose();
      }
    }

    /** readFd into the input buffer. */
    method Fill(res: BB.ReadResult) returns (ok: bool)
      requires Linked() && !broken && BB.LegalRead(inputBuffer.View(), res)
      modifies this`log, this`broken, inputBuffer, inputBuffer.buffer
      ensures var c := Receive(old(View()), res);
              && (ok <==> !c.broken) && (if ok then Linked() && View() == c else broken)
      ensures (res.Got? ==> res.bytes == []) ==> ok
      ensures BuffersKept()
    {
      hide BB.ReadFd, ReadSpoils, BB.LegalRead, RegStep, PollerObjects.EPollPoller.Agrees;
      if res.Failed? || res.bytes == [] {
        EmptyReadIsSafe(cfg.compaction, inputBuffer.View(), res);
      }
      log := log.(spoiled := log.spoiled || ReadSpoils(inputBuffer.View(), res));
      ok := ReadInput(res);
      if ok {
        NoteReceived(res);
      } else {
        broken := true;
      }
    }

    /** The history of a read. */
    ghost method NoteReceived(res: BB.ReadResult)
      requires Linked()
      modifies this`log
      ensures log == var l := old(log);
                     var received := if res.Got? then l.received + res.bytes else l.received;
                     l.(received := received,
                        aligned := l.aligned && l.consumed + inputBuffer.View().Contents() == received)
      ensures Linked() && View() == old(View()).(log := log)
    {
      log := if res.Got? then log.(received := log.received + res.bytes) else log;
      log := log.(aligned := log.aligned && log.consumed + inputBuffer.View().Contents() == log.received);
    }

    /** The call of readFd. */
    method ReadInput(res: BB.ReadResult) returns (ok: bool)
      requires Linked() && BB.LegalRead(inputBuffer.View(), res)
      modifies inputBuffer, inputBuffer.buffer
      ensures var r := BB.ReadFd(cfg.compaction, old(inputBuffer.View()), res);
              (ok <==> r.Some?) && (ok ==> Linked() && View() == old(View()).(inp := r.value))
      ensures BuffersKept()
    {
      hide BB.ReadFd, BB.LegalRead, PollerObjects.EPollPoller.Agrees;
      ghost var c := View();
      var n: int;
      n, ok := inputBuffer.ReadFd(res);
      assert outputBuffer.View() == c.out && poller.See(channel) == c.chan;
    }

    /** One thing user code does with the connection on its loop thread: send, shutdown or retrieve. */
    method Act(act: UserAct)
      requires Valid() && LegalAct(View(), act)
      modifies Own(), poller, channel`events, channel`index
      ensures Became(C.Act(old(View()), act)) && OthersKept() && BuffersKept()
    {
      hide T.Good, C.SendInLoop, C.Shutdown, PollerObjects.EPollPoller.Agrees;
      ghost var c := View();
      T.ActKeepsGood(c, act);
      GoodIsRegistered(c);
      match act
      case Send(msg, w) =>
        if state == Connected {
          SendInLoop(msg, w);
        }
      case CallShutdown => Shutdown();
      case Take(n) =>
        ghost var all := inputBuffer.View().Contents();
        log := log.(consumed := log.consumed + all[..if n < |all| then n else |all|]);
        inputBuffer.Retrieve(n);
    }

    /** A user callback, given by what it does. */
    method RunCallback(acts: seq<UserAct>)
      requires Valid() && LegalActs(View(), acts)
      modifies Own(), poller, channel`events, channel`index
      ensures Became(Acts(old(View()), acts)) && OthersKept() && BuffersKept()
    {
      hide T.Good, C.Act, PollerObjects.EPollPoller.Agrees;
      ghost var c := View();
      GoodIsRegistered(c);
      for i := 0 to |acts|
        invariant Valid() && LegalActs(View(), acts[i..]) && Acts(View(), acts[i..]) == Acts(c, acts)
        invariant OthersKept() && BuffersKept()
      {
        assert acts[i..][1..] == acts[i + 1..];
        ghost var next := C.Act(View(), acts[i]);
        Act(acts[i]);
        if broken {
          T.ActsKeepBroken(next, acts[i + 1..]);
          return;
        }
      }
    }

    /** The read callback: handleRead, then the message callback if it is due. */
    method ReadAndDeliver(res: BB.ReadResult, acts: seq<UserAct>)
      requires Valid() && channel.index == Added && LegalHandleRead(View(), res, acts)
      modifies Own(), poller, channel`events, channel`index
      ensures Became(C.HandleRead(old(View()), res, acts)) && OthersKept() && BuffersKept()
    {
      hide T.Good, C.HandleClose, Receive, Acts, LegalActs, RegStep, PollerObjects.EPollPoller.Agrees;
      ghost var c := View();
      var deliver := HandleRead(res);
      if deliver {
        if broken {
          T.ActsKeepBroken(Receive(c, res), acts);
        } else {
          RunCallback(acts);
        }
      }
    }

    /** The close and read branches of handleEventWithGuard. */
    method CloseAndRead(mask: Mask, res: BB.ReadResult, acts: seq<UserAct>, ghost e: Event)
      requires Valid() && channel.index == Added && e.mask == mask && e.res == res && e.acts == acts
      requires LegalEventRead(View(), e)
      modifies Own(), poller, channel`events, channel`index
      ensures Became(EventRead(old(View()), e)) && OthersKept() && BuffersKept()
    {
      hide T.Good, C.HandleClose, C.HandleRead, LegalHandleRead, RegStep, PollerObjects.EPollPoller.Agrees;
      ghost var c := View();
      GoodIsRegistered(c);
      if mask.hup && !mask.inp {
        HandleClose();
      }
      assert Valid() && View() == EventClose(c, e) && channel.index == Added;
      if mask.inp || mask.pri {
        ReadAndDeliver(res, acts);
      }
    }

    /** handleEventWithGuard of the connection's channel, with the callbacks bound to this connection. */
    method HandleEvent(res: BB.ReadResult, acts: seq<UserAct>, w: WriteResult)
      requires Valid() && LegalEvent(View(), Event(channel.revents, res, acts, w))
      modifies Own(), poller, channel`events, channel`index
      ensures Became(C.HandleEvent(old(View()), Event(channel.revents, res, acts, w)))
      ensures OthersKept() && BuffersKept()
    {
      hide T.Good, EventRead, LegalEventRead, C.HandleWrite, RegStep, PollerObjects.EPollPoller.Agrees;
      ghost var c, e := View(), Event(channel.revents, res, acts, w);
      GoodIsRegistered(c);
      CloseAndRead(channel.revents, res, acts, e);
      if channel.revents.out {
        if broken {
          T.WriteKeepsBroken(EventRead(c, e), w);
        } else {
          HandleWrite(w);
        }
      }
    }
  }

  lemma FatalStays(f: Disabling, r: Reg, op: ChannelOp)
    requires !RegStep(f, r, op).fatal
    ensures !r.fatal
  {}

  lemma PollerIsSound(c: Conn)
    requires Registered(c)
    ensures !c.chan.fatal
  {}

  lemma SameRegistered(c: Conn, d: Conn)
    requires Registered(c) && d.state == c.state && d.chan == c.chan && d.log.ups == c.log.ups
    ensures Registered(d)
  {}

  lemma GoodIsRegistered(c: Conn)
    requires T.Good(c)
    ensures Registered(c)
  {}

  lemma LiveCanChange(c: Conn)
    requires Registered(c) && Live(c)
    ensures !RegStep(c.cfg.disabling, c.chan, EnableWriting).fatal
    ensures !RegStep(c.cfg.disabling, c.chan, DisableAll).fatal
  {}

  lemma ClearedReg(f: Disabling, r: Reg)
    requires !r.fatal && r.index == Added
    ensures RegStep(f, r, DisableAll) == Reg(NONE_EVENT, Added, None, false)
  {}

  lemma FirstReg(f: Disabling)
    ensures RegStep(f, UNREGISTERED, EnableReading) == Reg(READ_EVENT, Added, Some(READ_EVENT), false)
  {}

  lemma LiveCanDisable(c: Conn)
    requires Registered(c) && Live(c) && IsWriting(c)
    ensures !RegStep(c.cfg.disabling, c.chan, DisableWriting).fatal
  {}

  lemma RemoveIsSafe(f: Disabling, r: Reg)
    requires !r.fatal
    ensures !RegStep(f, r, Remove).fatal && RegStep(f, r, Remove).index == New
  {}

  lemma EmptyReadIsSafe(v: BB.Compaction, b: BB.Buf, res: BB.ReadResult)
    requires b.Valid() && BB.LegalRead(b, res) && (res.Got? ==> res.bytes == [])
    ensures BB.ReadFd(v, b, res).Some?
  {}
}
