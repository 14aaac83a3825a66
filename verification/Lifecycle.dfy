/**
  The life of a connection across loops (src/TcpServer.cc:59-113, src/TcpConnection.cc:150-168,
  222-231): accepted on the base loop, established on its I/O loop, closed there, erased from
  the map on the base loop, destroyed on its I/O loop again.

  Any number of loops run concurrently, each with a FIFO functor queue; one action is one
  piece of work of one loop thread. A call that first changes something and then hands a
  functor to another loop is two actions, with the hand-off recorded as the thread's
  continuation in between.
*/
module Lifecycle {
  import opened Options
  import opened Names
  import opened Epoll
  import Connections

  type State = Connections.State

  datatype Functor = Establish(c: nat) | RemoveConn(c: nat) | DestroyConn(c: nat) | Task(k: int)

  /** What a loop thread is doing. */
  datatype Phase = Polling | Handling(active: seq<nat>) | Running(batch: seq<Functor>)

  /** The hand-off a loop thread still has to make before it goes on. */
  datatype Cont = Idle | PushEstablish(c: nat) | PushRemove(c: nat) | PushDestroy(c: nat)

  datatype Loop = Loop(queue: seq<Functor>, phase: Phase, cont: Cont) {
    /** Functors taken and not run yet, then functors pending. */
    function Items(): seq<Functor> {
      (if phase.Running? then phase.batch else []) + queue
    }
  }

  type Loops = map<nat, Loop>

  /** What happens to one connection, for its history. */
  datatype Ev = Accepted | Established | Handled | Closed | Erased | Destroyed

  datatype Stage = Fresh | Live | Closing | Gone | Dead

  /** The order in which things may happen to a connection, each at most once but Handled. */
  function NextStage(s: Stage, e: Ev): Option<Stage> {
    match (s, e)
    case (Fresh, Established) => Some(Live)
    case (Live, Handled) => Some(Live)
    case (Live, Closed) => Some(Closing)
    case (Closing, Erased) => Some(Gone)
    case (Gone, Destroyed) => Some(Dead)
    case _ => None
  }

  function StageAfter(hist: seq<Ev>): Option<Stage> {
    if hist == [] then None
    else if hist == [Accepted] then Some(Fresh)
    else
      var before := StageAfter(hist[..|hist| - 1]);
      if before.None? then None else NextStage(before.value, hist[|hist| - 1])
  }

  /** index and registered are the channel's index_ and its presence in the kernel interest set. */
  datatype Conn = Conn(loop: nat, fd: int, state: State, index: Index, registered: bool,
                       hist: seq<Ev>, stage: Stage)

  datatype Config = Config(base: nat, server: string, listen: Endpoint)

  datatype World = World(loops: Loops, conns: map<nat, Conn>, table: map<string, nat>, nextId: nat)

  function Name(cfg: Config, c: nat): string {
    ConnName(cfg.server, cfg.listen, c)
  }

  /** Loops exist, all polling; the server has accepted nothing. */
  predicate Init(cfg: Config, w: World) {
    && cfg.base in w.loops && cfg.listen.Valid()
    && (forall l | l in w.loops :: w.loops[l] == Loop([], Polling, Idle))
    && w.conns == map[] && w.table == map[] && w.nextId == 1
  }

  datatype Action =
    | PollReturn(l: nat, active: seq<nat>)
    | Accept(io: nat, fd: int)
    | HandleEvent(l: nat, closes: bool)
    | CallShutdown(l: nat, c: nat)
    | Continue(l: nat)
    | TakeBatch(l: nat)
    | RunFunctor(l: nat)
    | EndBatch(l: nat)
    | PushTask(l: nat, k: int)

  // ---------------------------------------------------------------- updates of the world

  function Enqueue(ls: Loops, l: nat, f: Functor): Loops
    requires l in ls
  {
    ls[l := ls[l].(queue := ls[l].queue + [f])]
  }

  function SetCont(ls: Loops, l: nat, cont: Cont): Loops
    requires l in ls
  {
    ls[l := ls[l].(cont := cont)]
  }

  function SetPhase(ls: Loops, l: nat, phase: Phase): Loops
    requires l in ls
  {
    ls[l := ls[l].(phase := phase)]
  }

  /** connectionEstablished: kConnected, then enableReading adds the channel. */
  function EstablishConn(w: World, c: nat): World
    requires c in w.conns
  {
    var k := w.conns[c];
    w.(conns := w.conns[c := k.(state := Connections.Connected, index := Added, registered := true,
                                hist := k.hist + [Established], stage := Live)])
  }

  /** handleClose: kDisconnected, then disableAll takes the fd out of the interest set. */
  function CloseConn(w: World, c: nat): World
    requires c in w.conns
  {
    var k := w.conns[c];
    w.(conns := w.conns[c := k.(state := Connections.Disconnected, registered := false,
                                hist := k.hist + [Handled, Closed], stage := Closing)])
  }

  /** removeConnectionInLoop up to its hand-off: the map entry goes. */
  function EraseConn(cfg: Config, w: World, c: nat): World
    requires c in w.conns
  {
    var k := w.conns[c];
    w.(conns := w.conns[c := k.(hist := k.hist + [Erased], stage := Gone)], table := w.table - {Name(cfg, c)})
  }

  /** connectionDestroyed: removeChannel. */
  function DestroyConnection(w: World, c: nat): World
    requires c in w.conns
  {
    var k := w.conns[c];
    w.(conns := w.conns[c := k.(state := if k.state == Connections.Connected then Connections.Disconnected else k.state,
                                index := New, registered := false,
                                hist := k.hist + [Destroyed], stage := Dead)])
  }

  // ---------------------------------------------------------------- steps

  predicate Enabled(cfg: Config, w: World, a: Action) {
    && cfg.base in w.loops
    && match a
       case PollReturn(l, active) =>
         // epoll_wait reports registered channels of this loop, each at most once
         && l in w.loops && w.loops[l].phase.Polling? && w.loops[l].cont.Idle?
         && (forall i | 0 <= i < |active| ::
               active[i] in w.conns && w.conns[active[i]].loop == l && w.conns[active[i]].registered)
         && (forall i, j | 0 <= i < j < |active| :: active[i] != active[j])
       case Accept(io, fd) =>
         // accept4 returns an fd that no connection still holds; the id counter has not overflowed
         && w.loops[cfg.base].phase.Handling? && w.loops[cfg.base].cont.Idle? && io in w.loops
         && w.nextId <= INT_MAX
         && (forall c | c in w.conns && w.conns[c].stage != Dead :: w.conns[c].fd != fd)
       case HandleEvent(l, closes) =>
         && l in w.loops && w.loops[l].cont.Idle?
         && w.loops[l].phase.Handling? && w.loops[l].phase.active != []
         && w.loops[l].phase.active[0] in w.conns
       case CallShutdown(l, c) =>
         && l in w.loops && w.loops[l].cont.Idle? && !w.loops[l].phase.Polling?
         && c in w.conns && w.conns[c].loop == l && w.conns[c].state == Connections.Connected
       case Continue(l) =>
         && l in w.loops && !w.loops[l].cont.Idle?
         && w.loops[l].cont.c in w.conns && w.conns[w.loops[l].cont.c].loop in w.loops
       case TakeBatch(l) =>
         l in w.loops && w.loops[l].cont.Idle? && w.loops[l].phase == Handling([])
       case RunFunctor(l) =>
         && l in w.loops && w.loops[l].cont.Idle?
         && w.loops[l].phase.Running? && w.loops[l].phase.batch != []
         && (var f := w.loops[l].phase.batch[0]; !f.Task? ==> f.c in w.conns)
       case EndBatch(l) =>
         l in w.loops && w.loops[l].cont.Idle? && w.loops[l].phase == Running([])
       case PushTask(l, k) =>
         l in w.loops
  }

  function Step(cfg: Config, w: World, a: Action): World
    requires Enabled(cfg, w, a)
  {
    match a
    case PollReturn(l, active) => w.(loops := SetPhase(w.loops, l, Handling(active)))
    case Accept(io, fd) => DoAccept(cfg, w, io, fd)
    case HandleEvent(l, closes) => DoEvent(w, l, closes)
    case CallShutdown(l, c) => w.(conns := w.conns[c := w.conns[c].(state := Connections.Disconnecting)])
    case Continue(l) => DoContinue(cfg, w, l)
    case TakeBatch(l) => w.(loops := w.loops[l := w.loops[l].(phase := Running(w.loops[l].queue), queue := [])])
    case RunFunctor(l) => DoFunctor(cfg, w, l)
    case EndBatch(l) => w.(loops := SetPhase(w.loops, l, Polling))
    case PushTask(l, k) => w.(loops := Enqueue(w.loops, l, Task(k)))
  }

  /** newConnection up to its hand-off: the connection is made and entered in the map. */
  function DoAccept(cfg: Config, w: World, io: nat, fd: int): World
    requires cfg.base in w.loops
  {
    var id := w.nextId;
    World(SetCont(w.loops, cfg.base, PushEstablish(id)),
          w.conns[id := Conn(io, fd, Connections.Connecting, New, false, [Accepted], Fresh)],
          w.table[Name(cfg, id) := id],
          id + 1)
  }

  /** The handlers of one event, which close the connection or do not. */
  function DoEvent(w: World, l: nat, closes: bool): World
    requires l in w.loops && w.loops[l].phase.Handling? && w.loops[l].phase.active != []
    requires w.loops[l].phase.active[0] in w.conns
  {
    var c := w.loops[l].phase.active[0];
    var ls := SetPhase(w.loops, l, Handling(w.loops[l].phase.active[1..]));
    if closes then CloseConn(w, c).(loops := SetCont(ls, l, PushRemove(c)))
    else w.(loops := ls, conns := w.conns[c := w.conns[c].(hist := w.conns[c].hist + [Handled])])
  }

  /**
    The hand-offs: runInLoop of connectionEstablished and of removeConnectionInLoop run at once on
    their own loop and are queued on another; connectionDestroyed is always queued.
  */
  function DoContinue(cfg: Config, w: World, l: nat): World
    requires l in w.loops && cfg.base in w.loops && !w.loops[l].cont.Idle?
    requires w.loops[l].cont.c in w.conns && w.conns[w.loops[l].cont.c].loop in w.loops
  {
    var c := w.loops[l].cont.c;
    var io := w.conns[c].loop;
    var idle := SetCont(w.loops, l, Idle);
    match w.loops[l].cont
    case PushEstablish(_) =>
      if io == l then EstablishConn(w, c).(loops := idle) else w.(loops := Enqueue(idle, io, Establish(c)))
    case PushRemove(_) =>
      if l == cfg.base then EraseConn(cfg, w, c).(loops := SetCont(w.loops, l, PushDestroy(c)))
      else w.(loops := Enqueue(idle, cfg.base, RemoveConn(c)))
    case PushDestroy(_) =>
      w.(loops := Enqueue(idle, io, DestroyConn(c)))
  }

  /** One functor of the batch. */
  function DoFunctor(cfg: Config, w: World, l: nat): World
    requires l in w.loops && w.loops[l].phase.Running? && w.loops[l].phase.batch != []
    requires var f := w.loops[l].phase.batch[0]; !f.Task? ==> f.c in w.conns
  {
    var f := w.loops[l].phase.batch[0];
    var ls := SetPhase(w.loops, l, Running(w.loops[l].phase.batch[1..]));
    match f
    case Establish(c) => EstablishConn(w, c).(loops := ls)
    case RemoveConn(c) => EraseConn(cfg, w, c).(loops := SetCont(ls, l, PushDestroy(c)))
    case DestroyConn(c) => DestroyConnection(w, c).(loops := ls)
    case Task(_) => w.(loops := ls)
  }

  predicate LegalRun(cfg: Config, w: World, acts: seq<Action>)
    decreases |acts|
  {
    acts == [] || (Enabled(cfg, w, acts[0]) && LegalRun(cfg, Step(cfg, w, acts[0]), acts[1..]))
  }

  function Run(cfg: Config, w: World, acts: seq<Action>): World
    requires LegalRun(cfg, w, acts)
    decreases |acts|
  {
    if acts == [] then w else Run(cfg, Step(cfg, w, acts[0]), acts[1..])
  }
}
