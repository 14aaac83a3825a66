/**
  Channel interest and poller registration (src/Channel.h, src/EPollPoller.cc, src/Poller.cc).

  One fact, "this channel is registered with these events", is kept in three places: the
  channel's index, the poller's table channels_, and the interest set in the kernel.
*/
module Epoll {
  import opened Options

  /** An epoll event mask; the operators are the bitwise operators of the source. */
  datatype Mask = Mask(inp: bool, pri: bool, out: bool, err: bool, hup: bool) {
    function Or(m: Mask): Mask {
      Mask(inp || m.inp, pri || m.pri, out || m.out, err || m.err, hup || m.hup)
    }

    function And(m: Mask): Mask {
      Mask(inp && m.inp, pri && m.pri, out && m.out, err && m.err, hup && m.hup)
    }

    function Not(): Mask {
      Mask(!inp, !pri, !out, !err, !hup)
    }
  }

  const NONE_EVENT := Mask(false, false, false, false, false)
  const READ_EVENT := Mask(true, true, false, false, false)
  const WRITE_EVENT := Mask(false, false, true, false, false)

  /** disableWriting as src/Channel.h:48 has it, and with the complemented mask it was meant to have. */
  datatype Disabling = MaskAsWritten | MaskAsMeant

  datatype Index = New | Added | Deleted

  datatype ChannelOp = EnableReading | DisableReading | EnableWriting | DisableWriting | DisableAll | Remove

  function NextEvents(f: Disabling, events: Mask, op: ChannelOp): Mask {
    match op
    case EnableReading => events.Or(READ_EVENT)
    case DisableReading => events.And(READ_EVENT.Not())
    case EnableWriting => events.Or(WRITE_EVENT)
    case DisableWriting => events.And(if f == MaskAsWritten then WRITE_EVENT else WRITE_EVENT.Not())
    case DisableAll => NONE_EVENT
    case Remove => events
  }

  /**
    What the interest changes do to the events of a channel: enabling one direction keeps the
    other, disabling takes back exactly what enabling gave, and disableWriting as written takes
    everything but the write bit.
  */
  lemma InterestLaws(f: Disabling, m: Mask)
    ensures var r := NextEvents(f, m, EnableReading);
            r.inp && r.pri && r == m.(inp := true, pri := true)
    ensures var r := NextEvents(f, m, EnableWriting);
            r.out && r == m.(out := true)
    ensures !m.inp && !m.pri ==> NextEvents(f, NextEvents(f, m, EnableReading), DisableReading) == m
    ensures var r := NextEvents(f, m, DisableReading);
            !r.inp && !r.pri && r.out == m.out && r.err == m.err && r.hup == m.hup
    ensures !m.out ==> NextEvents(MaskAsMeant, NextEvents(f, m, EnableWriting), DisableWriting) == m
    ensures NextEvents(MaskAsMeant, m, DisableWriting) == m.(out := false)
    ensures var r := NextEvents(MaskAsWritten, m, DisableWriting);
            r.out == m.out && !r.inp && !r.pri && !r.err && !r.hup
    ensures var r := NextEvents(f, m, DisableAll);
            !r.inp && !r.pri && !r.out && !r.err && !r.hup
  {}

  // ---------------------------------------------------------------- one channel

  /** What one channel sees of the poller: its own fields, its kernel entry, and LOG_FATAL. */
  datatype Reg = Reg(events: Mask, index: Index, kernel: Option<Mask>, fatal: bool)

  const UNREGISTERED := Reg(NONE_EVENT, New, None, false)

  /** updateChannel, with epoll_ctl(2): ADD fails on a registered fd, MOD on an unregistered one. */
  function Update(r: Reg): Reg {
    if r.index == New || r.index == Deleted then
      if r.kernel.None? then r.(index := Added, kernel := Some(r.events))
      else r.(index := Added, fatal := true)
    else if r.events == NONE_EVENT then
      r.(kernel := None)
    else if r.kernel.Some? then
      r.(kernel := Some(r.events))
    else
      r.(fatal := true)
  }

  /** removeChannel: a failed DEL is only logged. */
  function Unregister(r: Reg): Reg {
    r.(index := New, kernel := if r.index == Added then None else r.kernel)
  }

  function RegStep(f: Disabling, r: Reg, op: ChannelOp): Reg {
    if r.fatal then r
    else if op == Remove then Unregister(r)
    else Update(r.(events := NextEvents(f, r.events, op)))
  }

  function RegRun(f: Disabling, ops: seq<ChannelOp>): Reg {
    if ops == [] then UNREGISTERED else RegStep(f, RegRun(f, ops[..|ops| - 1]), ops[|ops| - 1])
  }

  /** The interest a channel has after some operations: its events_ field, without any poller. */
  function EventsAfter(f: Disabling, ops: seq<ChannelOp>): Mask {
    if ops == [] then NONE_EVENT else NextEvents(f, EventsAfter(f, ops[..|ops| - 1]), ops[|ops| - 1])
  }

  /** Operation i follows another update and leaves no interest. */
  predicate ClearedAt(f: Disabling, ops: seq<ChannelOp>, i: nat)
    requires i < |ops|
  {
    0 < i && ops[i - 1] != Remove && EventsAfter(f, ops[..i + 1]) == NONE_EVENT
  }

  /** Interest was dropped to none on a channel already added, and it was not removed since. */
  ghost predicate Cleared(f: Disabling, ops: seq<ChannelOp>) {
    exists i | 0 <= i < |ops| :: ClearedAt(f, ops, i) && forall m | i <= m < |ops| :: ops[m] != Remove
  }

  /** Operation k gives interest again to a channel in that condition. */
  ghost predicate MisusedAt(f: Disabling, ops: seq<ChannelOp>, k: nat)
    requires k < |ops|
  {
    ops[k] != Remove && EventsAfter(f, ops[..k + 1]) != NONE_EVENT && Cleared(f, ops[..k])
  }

  ghost predicate Misuse(f: Disabling, ops: seq<ChannelOp>) {
    exists k | 0 <= k < |ops| :: MisusedAt(f, ops, k)
  }

  lemma ClearedExtends(f: Disabling, ops: seq<ChannelOp>, op: ChannelOp)
    ensures Cleared(f, ops + [op]) <==>
              op != Remove && (Cleared(f, ops) || ClearedAt(f, ops + [op], |ops|))
  {
    var all := ops + [op];
    forall i | 0 <= i < |ops|
      ensures ClearedAt(f, all, i) <==> ClearedAt(f, ops, i)
    {
      assert all[..i + 1] == ops[..i + 1];
    }
    if Cleared(f, all) {
      var i :| 0 <= i < |all| && ClearedAt(f, all, i) && forall m | i <= m < |all| :: all[m] != Remove;
      assert all[|ops|] == op;
      if i < |ops| {
        assert forall m | i <= m < |ops| :: ops[m] == all[m];
      }
    }
    if op != Remove && Cleared(f, ops) {
      var i :| 0 <= i < |ops| && ClearedAt(f, ops, i) && forall m | i <= m < |ops| :: ops[m] != Remove;
      assert ClearedAt(f, all, i) && forall m | i <= m < |all| :: all[m] != Remove;
    }
    if op != Remove && ClearedAt(f, all, |ops|) {
      assert forall m | |ops| <= m < |all| :: all[m] != Remove;
    }
  }

  lemma MisuseExtends(f: Disabling, ops: seq<ChannelOp>, op: ChannelOp)
    ensures Misuse(f, ops + [op]) <==> Misuse(f, ops) || MisusedAt(f, ops + [op], |ops|)
  {
    var all := ops + [op];
    forall k | 0 <= k < |ops|
      ensures MisusedAt(f, all, k) <==> MisusedAt(f, ops, k)
    {
      assert all[..k + 1] == ops[..k + 1] && all[..k] == ops[..k];
    }
  }

  /**
    One channel: the poller reaches LOG_FATAL if and only if some operation gives interest to
    a channel that was cleared while added and not removed since. Before that the three
    copies agree.
  */
  lemma {:induction false} FatalIffMisuse(f: Disabling, ops: seq<ChannelOp>)
    ensures var r := RegRun(f, ops);
            && (r.fatal <==> Misuse(f, ops))
            && (!r.fatal ==>
                  && r.events == EventsAfter(f, ops)
                  && r.index == (if ops != [] && ops[|ops| - 1] != Remove then Added else New)
                  && (r.kernel.Some? <==> r.index == Added && !Cleared(f, ops))
                  && (r.kernel.Some? ==> r.kernel.value == r.events))
    decreases |ops|
  {
    if ops != [] {
      var before, op := ops[..|ops| - 1], ops[|ops| - 1];
      assert ops == before + [op] && ops[..|ops|] == ops;
      FatalIffMisuse(f, before);
      ClearedExtends(f, before, op);
      MisuseExtends(f, before, op);
      assert ops[..|before|] == before;
    }
  }

  /** The shortest misuse, in both forms: reading enabled, all disabled, reading enabled again. */
  lemma ReenablingIsFatal(f: Disabling)
    ensures var ops := [EnableReading, DisableAll, EnableReading];
            RegRun(f, ops).fatal && Misuse(f, ops)
  {
    var ops := [EnableReading, DisableAll, EnableReading];
    assert ops[..2][..1][..0] == [] && ops[..2][..1] == [EnableReading];
    assert RegRun(f, ops[..2][..1]) == Reg(READ_EVENT, Added, Some(READ_EVENT), false);
    assert RegRun(f, ops[..2]) == Reg(NONE_EVENT, Added, None, false);
    FatalIffMisuse(f, ops);
  }

  /** updateChannel storing kDeleted after its DEL, as its test for that value shows it was meant to. */
  function UpdateAsMeant(r: Reg): Reg {
    if r.index == Added && r.events == NONE_EVENT then Update(r).(index := Deleted) else Update(r)
  }

  function RegRunAsMeant(f: Disabling, ops: seq<ChannelOp>): Reg {
    if ops == [] then UNREGISTERED
    else
      var r, op := RegRunAsMeant(f, ops[..|ops| - 1]), ops[|ops| - 1];
      if r.fatal then r
      else if op == Remove then Unregister(r)
      else UpdateAsMeant(r.(events := NextEvents(f, r.events, op)))
  }

  /** With kDeleted stored, no sequence of operations whatever reaches LOG_FATAL. */
  lemma {:induction false} NeverFatalAsMeant(f: Disabling, ops: seq<ChannelOp>)
    ensures var r := RegRunAsMeant(f, ops);
            && !r.fatal && (r.kernel.Some? <==> r.index == Added) && (r.kernel.Some? ==> r.kernel.value == r.events)
            && r.events == EventsAfter(f, ops)
            && (r.index == New <==> ops == [] || ops[|ops| - 1] == Remove)
    decreases |ops|
  {
    if ops != [] {
      NeverFatalAsMeant(f, ops[..|ops| - 1]);
    }
  }

  // ---------------------------------------------------------------- many channels

  datatype Chan = Chan(fd: int, events: Mask, index: Index)

  datatype Entry = Entry(mask: Mask, chan: nat)

  /** Channels by identity, the table channels_, the kernel interest set, and LOG_FATAL. */
  datatype Poller = Poller(chans: map<nat, Chan>, table: map<int, nat>, kernel: map<int, Entry>, fatal: bool)

  const NEW_POLLER := Poller(map[], map[], map[], false)

  datatype PollerOp = Create(c: nat, fd: int) | On(c: nat, op: ChannelOp) | Destroy(c: nat)

  predicate HasChannel(p: Poller, c: nat) {
    c in p.chans && p.chans[c].fd in p.table && p.table[p.chans[c].fd] == c
  }

  /** Live channels have distinct fds, and a channel is removed before it is destroyed. */
  predicate LegalPollerOp(p: Poller, op: PollerOp) {
    match op
    case Create(c, fd) => c !in p.chans && forall d | d in p.chans :: p.chans[d].fd != fd
    case On(c, _) => c in p.chans
    case Destroy(c) => c in p.chans && p.chans[c].index == New
  }

  function UpdateChannel(p: Poller, c: nat): Poller
    requires c in p.chans
  {
    var ch := p.chans[c];
    var entry := Entry(ch.events, c);
    if ch.index == New || ch.index == Deleted then
      var q := p.(table := if ch.index == New then p.table[ch.fd := c] else p.table,
                  chans := p.chans[c := ch.(index := Added)]);
      if ch.fd in p.kernel then q.(fatal := true) else q.(kernel := p.kernel[ch.fd := entry])
    else if ch.events == NONE_EVENT then
      p.(kernel := p.kernel - {ch.fd})
    else if ch.fd in p.kernel then
      p.(kernel := p.kernel[ch.fd := entry])
    else
      p.(fatal := true)
  }

  function RemoveChannel(p: Poller, c: nat): Poller
    requires c in p.chans
  {
    var ch := p.chans[c];
    var q := if ch.index == Added then p.(kernel := p.kernel - {ch.fd}, table := p.table - {ch.fd}) else p;
    q.(chans := q.chans[c := ch.(index := New)])
  }

  function PollerStep(f: Disabling, p: Poller, op: PollerOp): Poller
    requires LegalPollerOp(p, op)
  {
    if p.fatal then p
    else
      match op
      case Create(c, fd) => p.(chans := p.chans[c := Chan(fd, NONE_EVENT, New)])
      case On(c, Remove) => RemoveChannel(p, c)
      case On(c, o) =>
        var ch := p.chans[c];
        UpdateChannel(p.(chans := p.chans[c := ch.(events := NextEvents(f, ch.events, o))]), c)
      case Destroy(c) => p.(chans := p.chans - {c})
  }

  predicate LegalTrace(f: Disabling, trace: seq<PollerOp>)
    decreases |trace|, 0
  {
    trace == [] ||
    (LegalTrace(f, trace[..|trace| - 1]) &&
     LegalPollerOp(PollerRun(f, trace[..|trace| - 1]), trace[|trace| - 1]))
  }

  function PollerRun(f: Disabling, trace: seq<PollerOp>): Poller
    requires LegalTrace(f, trace)
    decreases |trace|, 1
  {
    if trace == [] then NEW_POLLER
    else PollerStep(f, PollerRun(f, trace[..|trace| - 1]), trace[|trace| - 1])
  }

  /** The operations of a trace on one channel since it was created. */
  function OpsOf(trace: seq<PollerOp>, c: nat): seq<ChannelOp> {
    if trace == [] then []
    else
      var before, last := OpsOf(trace[..|trace| - 1], c), trace[|trace| - 1];
      match last
      case Create(d, _) => if d == c then [] else before
      case On(d, op) => if d == c then before + [op] else before
      case Destroy(_) => before
  }

  predicate DistinctFds(p: Poller) {
    forall c, d | c in p.chans && d in p.chans && c != d :: p.chans[c].fd != p.chans[d].fd
  }

  predicate TableSound(p: Poller) {
    forall fd | fd in p.table :: p.table[fd] in p.chans && p.chans[p.table[fd]].fd == fd
  }

  /** hasChannel holds exactly when the index is kAdded, and kDeleted is never stored. */
  predicate IndexAgrees(p: Poller) {
    forall c | c in p.chans ::
      p.chans[c].index != Deleted && (HasChannel(p, c) <==> p.chans[c].index == Added)
  }

  /** Every fd in the kernel set is in channels_ and is registered with its channel's events(). */
  predicate KernelAgrees(p: Poller)
    requires TableSound(p)
  {
    forall fd | fd in p.kernel ::
      fd in p.table && p.kernel[fd] == Entry(p.chans[p.table[fd]].events, p.table[fd])
  }

  /** The three copies agree. */
  predicate Agreement(p: Poller) {
    DistinctFds(p) && TableSound(p) && IndexAgrees(p) && KernelAgrees(p)
  }

  /** What channel c sees of the whole poller. */
  function RegOf(p: Poller, c: nat): Reg
    requires c in p.chans
  {
    var ch := p.chans[c];
    Reg(ch.events, ch.index, if ch.fd in p.kernel then Some(p.kernel[ch.fd].mask) else None, p.fatal)
  }

  /** Every channel but c sees the same poller before and after. */
  predicate OthersKept(p: Poller, q: Poller, c: nat) {
    forall d | d in q.chans && d != c :: d in p.chans && RegOf(q, d) == RegOf(p, d)
  }

  /** updateChannel on a channel whose events_ was just set. */
  function UpdateWith(p: Poller, c: nat, events: Mask): Poller
    requires c in p.chans
  {
    UpdateChannel(p.(chans := p.chans[c := p.chans[c].(events := events)]), c)
  }

  lemma AddIsLocal(p: Poller, c: nat, events: Mask)
    requires Agreement(p) && !p.fatal && c in p.chans && p.chans[c].index == New
    ensures var q := UpdateWith(p, c, events);
            && c in q.chans && RegOf(q, c) == Update(RegOf(p, c).(events := events))
            && Agreement(q) && OthersKept(p, q, c)
  {}

  lemma UpdateAddedIsLocal(p: Poller, c: nat, events: Mask)
    requires Agreement(p) && !p.fatal && c in p.chans && p.chans[c].index == Added
    ensures var q := UpdateWith(p, c, events);
            && c in q.chans && RegOf(q, c) == Update(RegOf(p, c).(events := events))
            && (!q.fatal ==> Agreement(q) && OthersKept(p, q, c))
  {
    var q := UpdateWith(p, c, events);
    var fd := p.chans[c].fd;
    assert q.chans == p.chans[c := Chan(fd, events, Added)] && q.table == p.table;
    if !q.fatal {
      assert q.kernel == if events == NONE_EVENT then p.kernel - {fd} else p.kernel[fd := Entry(events, c)];
      assert HasChannel(p, c);
      assert forall d | d in p.chans :: HasChannel(q, d) == HasChannel(p, d);
      assert forall e | e in q.kernel && e != fd :: p.table[e] != c;
    }
  }

  lemma RemoveIsLocal(p: Poller, c: nat)
    requires Agreement(p) && !p.fatal && c in p.chans
    ensures var q := RemoveChannel(p, c);
            && c in q.chans
            && RegOf(q, c) == Unregister(RegOf(p, c))
            && Agreement(q) && OthersKept(p, q, c)
  {}

  /** Channels with distinct fds do not disturb each other. */
  lemma ChannelsAreIndependent(f: Disabling, p: Poller, op: PollerOp)
    requires Agreement(p) && !p.fatal && LegalPollerOp(p, op)
    ensures var q := PollerStep(f, p, op);
            && (op.On? ==> op.c in q.chans && RegOf(q, op.c) == RegStep(f, RegOf(p, op.c), op.op))
            && (op.Create? ==> op.c in q.chans && RegOf(q, op.c) == UNREGISTERED)
            && (op.Destroy? ==> op.c !in q.chans)
            && (!q.fatal ==> Agreement(q) && OthersKept(p, q, op.c))
            && (q.fatal ==> op.On?)
  {
    var q := PollerStep(f, p, op);
    match op
    case Create(c, fd) =>
      assert fd !in p.table;
      assert forall d | d in p.chans :: HasChannel(q, d) == HasChannel(p, d);
    case On(c, o) =>
      if o == Remove {
        RemoveIsLocal(p, c);
      } else {
        var events := NextEvents(f, p.chans[c].events, o);
        assert q == UpdateWith(p, c, events);
        if p.chans[c].index == New {
          AddIsLocal(p, c, events);
        } else {
          UpdateAddedIsLocal(p, c, events);
        }
      }
    case Destroy(c) =>
      assert forall d | d in q.chans :: q.chans[d] == p.chans[d] && HasChannel(q, d) == HasChannel(p, d);
  }

  /** Some operation of the trace makes the operations on its channel a misuse. */
  ghost predicate PollerMisuse(f: Disabling, trace: seq<PollerOp>) {
    exists k | 0 <= k < |trace| :: MisuseEndsAt(f, trace, k)
  }

  ghost predicate MisuseEndsAt(f: Disabling, trace: seq<PollerOp>, k: nat)
    requires k < |trace|
  {
    trace[k].On? && Misuse(f, OpsOf(trace[..k + 1], trace[k].c))
  }

  lemma PollerMisuseExtends(f: Disabling, trace: seq<PollerOp>, op: PollerOp)
    ensures PollerMisuse(f, trace + [op]) <==>
              PollerMisuse(f, trace) || (op.On? && Misuse(f, OpsOf(trace, op.c) + [op.op]))
  {
    var all := trace + [op];
    assert all[..|trace|] == trace && all[..|trace| + 1] == all;
    forall k | 0 <= k < |trace|
      ensures MisuseEndsAt(f, all, k) <==> MisuseEndsAt(f, trace, k)
    {
      assert all[..k + 1] == trace[..k + 1];
    }
    assert MisuseEndsAt(f, all, |trace|) <==> op.On? && Misuse(f, OpsOf(trace, op.c) + [op.op]);
  }

  /** Each channel is where its own operations alone would put it. */
  ghost predicate Projects(f: Disabling, p: Poller, trace: seq<PollerOp>) {
    forall c | c in p.chans :: RegOf(p, c) == RegRun(f, OpsOf(trace, c))
  }

  lemma ProjectionStep(f: Disabling, p: Poller, trace: seq<PollerOp>, op: PollerOp)
    requires Agreement(p) && !p.fatal && LegalPollerOp(p, op) && Projects(f, p, trace)
    ensures var q := PollerStep(f, p, op);
            && (q.fatal <==> op.On? && Misuse(f, OpsOf(trace, op.c) + [op.op]))
            && (!q.fatal ==> Agreement(q) && Projects(f, q, trace + [op]))
  {
    ChannelsAreIndependent(f, p, op);
    var q := PollerStep(f, p, op);
    var all := trace + [op];
    assert all[..|trace|] == trace;
    if op.On? {
      var ops := OpsOf(trace, op.c);
      assert (ops + [op.op])[..|ops|] == ops;
      assert RegOf(q, op.c) == RegRun(f, ops + [op.op]);
      FatalIffMisuse(f, ops + [op.op]);
    }
    if !q.fatal {
      forall c | c in q.chans
        ensures RegOf(q, c) == RegRun(f, OpsOf(all, c))
      {
        assert c != op.c ==> OpsOf(all, c) == OpsOf(trace, c);
      }
    }
  }

  /**
    Whole poller, any number of channels, fds reused after a channel is destroyed: LOG_FATAL is
    reached if and only if some channel's own operations contain a misuse; until then the
    three copies agree, and each channel is where its own operations alone would put it.
  */
  lemma {:induction false} PollerFatalIffMisuse(f: Disabling, trace: seq<PollerOp>)
    requires LegalTrace(f, trace)
    ensures var p := PollerRun(f, trace);
            && (p.fatal <==> PollerMisuse(f, trace))
            && (!p.fatal ==> Agreement(p) && Projects(f, p, trace))
    decreases |trace|
  {
    if trace != [] {
      var before, op := trace[..|trace| - 1], trace[|trace| - 1];
      assert trace == before + [op];
      PollerFatalIffMisuse(f, before);
      PollerMisuseExtends(f, before, op);
      if !PollerRun(f, before).fatal {
        ProjectionStep(f, PollerRun(f, before), before, op);
      }
    }
  }

  // ---------------------------------------------------------------- many channels, kDeleted stored

  function UpdateChannelAsMeant(p: Poller, c: nat): Poller
    requires c in p.chans
  {
    var ch := p.chans[c];
    var q := UpdateChannel(p, c);
    if ch.index == Added && ch.events == NONE_EVENT then q.(chans := q.chans[c := ch.(index := Deleted)]) else q
  }

  function PollerStepAsMeant(f: Disabling, p: Poller, op: PollerOp): Poller
    requires LegalPollerOp(p, op)
  {
    if p.fatal || !op.On? || op.op == Remove then PollerStep(f, p, op)
    else
      var ch := p.chans[op.c];
      UpdateChannelAsMeant(p.(chans := p.chans[op.c := ch.(events := NextEvents(f, ch.events, op.op))]), op.c)
  }

  predicate LegalTraceAsMeant(f: Disabling, trace: seq<PollerOp>)
    decreases |trace|, 0
  {
    trace == [] ||
    (LegalTraceAsMeant(f, trace[..|trace| - 1]) &&
     LegalPollerOp(PollerRunAsMeant(f, trace[..|trace| - 1]), trace[|trace| - 1]))
  }

  function PollerRunAsMeant(f: Disabling, trace: seq<PollerOp>): Poller
    requires LegalTraceAsMeant(f, trace)
    decreases |trace|, 1
  {
    if trace == [] then NEW_POLLER
    else PollerStepAsMeant(f, PollerRunAsMeant(f, trace[..|trace| - 1]), trace[|trace| - 1])
  }

  /** A channel is in the kernel set exactly at kAdded, with its events, and in channels_ unless at kNew. */
  predicate ChannelAgreesAsMeant(p: Poller, c: nat)
    requires c in p.chans
  {
    var ch := p.chans[c];
    && (ch.fd in p.kernel <==> ch.index == Added)
    && (ch.fd in p.kernel ==> p.kernel[ch.fd] == Entry(ch.events, c))
    && (ch.index != New ==> HasChannel(p, c))
  }

  predicate AgreementAsMeant(p: Poller) {
    && DistinctFds(p)
    && (forall c | c in p.chans :: ChannelAgreesAsMeant(p, c))
    && (forall fd | fd in p.kernel :: p.kernel[fd].chan in p.chans && p.chans[p.kernel[fd].chan].fd == fd)
  }

  /** An update as meant, in one piece. */
  lemma UpdateShapeAsMeant(p: Poller, c: nat, events: Mask)
    requires !p.fatal && AgreementAsMeant(p) && c in p.chans
    ensures var ch := p.chans[c];
            var q := UpdateChannelAsMeant(p.(chans := p.chans[c := ch.(events := events)]), c);
            var index := if ch.index == Added && events == NONE_EVENT then Deleted else Added;
            q == Poller(p.chans[c := Chan(ch.fd, events, index)],
                        if ch.index == New then p.table[ch.fd := c] else p.table,
                        if index == Added then p.kernel[ch.fd := Entry(events, c)] else p.kernel - {ch.fd},
                        false)
  {
    assert ChannelAgreesAsMeant(p, c);
  }

  /** Setting one channel and its entries right keeps the others right. */
  lemma OneChannelSet(p: Poller, q: Poller, c: nat)
    requires AgreementAsMeant(p) && c in p.chans && c in q.chans
    requires q.chans == p.chans[c := q.chans[c]] && q.chans[c].fd == p.chans[c].fd
    requires forall fd | fd != p.chans[c].fd ::
               && (fd in q.table <==> fd in p.table) && (fd in p.table ==> q.table[fd] == p.table[fd])
               && (fd in q.kernel <==> fd in p.kernel) && (fd in p.kernel ==> q.kernel[fd] == p.kernel[fd])
    requires ChannelAgreesAsMeant(q, c)
    requires p.chans[c].fd in q.kernel ==> q.kernel[p.chans[c].fd].chan == c
    ensures AgreementAsMeant(q)
  {
    forall d | d in q.chans
      ensures ChannelAgreesAsMeant(q, d)
    {
      if d != c {
        assert ChannelAgreesAsMeant(p, d) && p.chans[d].fd != p.chans[c].fd;
      }
    }
  }

  lemma StepAgreesAsMeant(f: Disabling, p: Poller, op: PollerOp)
    requires !p.fatal && AgreementAsMeant(p) && LegalPollerOp(p, op)
    ensures var q := PollerStepAsMeant(f, p, op);
            !q.fatal && AgreementAsMeant(q)
  {
    hide UpdateChannelAsMeant, DistinctFds;
    var q := PollerStepAsMeant(f, p, op);
    match op
    case Create(c, fd) => CreateOrDestroyAgrees(f, p, op);
    case Destroy(c) => CreateOrDestroyAgrees(f, p, op);
    case On(c, o) =>
      if o == Remove {
        assert ChannelAgreesAsMeant(p, c);
        OneChannelSet(p, q, c);
      } else {
        UpdateShapeAsMeant(p, c, NextEvents(f, p.chans[c].events, o));
        assert ChannelAgreesAsMeant(p, c);
        OneChannelSet(p, q, c);
      }
  }

  lemma CreateOrDestroyAgrees(f: Disabling, p: Poller, op: PollerOp)
    requires !p.fatal && AgreementAsMeant(p) && LegalPollerOp(p, op) && !op.On?
    ensures AgreementAsMeant(PollerStep(f, p, op))
  {
    var q := PollerStep(f, p, op);
    forall d | d in q.chans
      ensures ChannelAgreesAsMeant(q, d)
    {
      if d in p.chans {
        assert ChannelAgreesAsMeant(p, d);
      }
    }
    if op.Destroy? {
      assert ChannelAgreesAsMeant(p, op.c);
    }
  }

  /** With kDeleted stored, no run of a poller with any number of channels reaches LOG_FATAL. */
  lemma {:induction false} PollerNeverFatalAsMeant(f: Disabling, trace: seq<PollerOp>)
    requires LegalTraceAsMeant(f, trace)
    ensures var p := PollerRunAsMeant(f, trace);
            !p.fatal && AgreementAsMeant(p)
    decreases |trace|
  {
    if trace != [] {
      var before := trace[..|trace| - 1];
      PollerNeverFatalAsMeant(f, before);
      StepAgreesAsMeant(f, PollerRunAsMeant(f, before), trace[|trace| - 1]);
    }
  }

  /**
    What storing kDeleted would need besides: removeChannel erases the entry of channels_ only at
    kAdded, so a removed channel, always at kNew, keeps its entry exactly when it was removed at
    kDeleted.
  */
  lemma RemoveLeavesEntryIff(p: Poller, c: nat)
    requires AgreementAsMeant(p) && c in p.chans && p.chans[c].index != New
    ensures HasChannel(RemoveChannel(p, c), c) <==> p.chans[c].index == Deleted
    ensures RemoveChannel(p, c).chans[c] == p.chans[c].(index := New)
  {
    assert ChannelAgreesAsMeant(p, c);
  }
}
