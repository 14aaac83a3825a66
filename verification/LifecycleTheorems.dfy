/** The connection life cycle, stated over every interleaving of any number of loops and connections. */
module LifecycleTheorems {
  import opened Options
  import opened Names
  import opened Epoll
  import Connections
  import CP = ConnectionProperties
  import opened Lifecycle
  import opened LifecycleProperties

  // ---------------------------------------------------------------- histories

  function Times(n: nat): seq<Ev> {
    if n == 0 then [] else Times(n - 1) + [Handled]
  }

  /** A whole life: accepted, established, n events, closed, erased, destroyed. */
  function Life(n: nat): seq<Ev> {
    [Accepted, Established] + Times(n) + [Closed, Erased, Destroyed]
  }

  lemma {:induction false} TimesAreHandled(n: nat)
    ensures |Times(n)| == n && forall i | 0 <= i < n :: Times(n)[i] == Handled
  {
    if n > 0 {
      TimesAreHandled(n - 1);
    }
  }

  /** Every beginning of a life that is not empty has a stage. */
  lemma {:induction false} BeginningHasStage(n: nat, k: nat)
    requires 0 < k <= |Life(n)|
    ensures |Life(n)| == n + 5
    ensures StageAfter(Life(n)[..k]) ==
              Some(if k == 1 then Fresh else if k <= n + 2 then Live else if k == n + 3 then Closing
                   else if k == n + 4 then Gone else Dead)
    decreases k
  {
    TimesAreHandled(n);
    var hist := Life(n)[..k];
    if k == 1 {
      assert hist == [Accepted];
    } else {
      BeginningHasStage(n, k - 1);
      assert hist[..k - 1] == Life(n)[..k - 1];
      assert hist[k - 1] == Life(n)[k - 1];
    }
  }

  /** The histories that have a stage are the beginnings of lives that are not empty, and nothing else. */
  lemma {:induction false} HistoryIsBeginningOfLife(hist: seq<Ev>)
    ensures StageAfter(hist).Some? <==> hist != [] && exists n :: hist <= Life(n)
    ensures StageAfter(hist) == Some(Live) ==> exists n :: hist == [Accepted, Established] + Times(n)
    decreases |hist|
  {
    hide Life;
    if StageAfter(hist).Some? {
      var n := HistoryEvents(hist);
    }
    if hist != [] && exists n :: hist <= Life(n) {
      var n :| hist <= Life(n);
      assert Life(n)[..|hist|] == hist;
      BeginningHasStage(n, |hist|);
    }
  }

  lemma {:induction false} HistoryEvents(hist: seq<Ev>) returns (n: nat)
    requires StageAfter(hist).Some?
    ensures match StageAfter(hist).value
            case Fresh => hist == [Accepted]
            case Live => hist == [Accepted, Established] + Times(n)
            case Closing => hist == [Accepted, Established] + Times(n) + [Closed]
            case Gone => hist == [Accepted, Established] + Times(n) + [Closed, Erased]
            case Dead => hist == Life(n)
    ensures hist <= Life(n)
    decreases |hist|
  {
    n := 0;
    if hist != [Accepted] {
      var before, last := hist[..|hist| - 1], hist[|hist| - 1];
      assert hist == before + [last];
      var k := HistoryEvents(before);
      n := if last == Handled then k + 1 else if last == Established then 0 else k;
      assert Times(k + 1) == Times(k) + [Handled] && Times(0) == [];
      if last == Handled {
        assert [Accepted, Established] + Times(k) + [Handled] == [Accepted, Established] + Times(k + 1);
      }
    }
  }

  /** Which events a history holds is told by the stage it has reached. */
  lemma {:induction false} StageTellsEvents(hist: seq<Ev>)
    requires StageAfter(hist).Some?
    ensures var s := StageAfter(hist).value;
            && (Established in hist <==> s != Fresh)
            && (Erased in hist <==> s == Gone || s == Dead)
            && (Destroyed in hist <==> s == Dead)
    decreases |hist|
  {
    if hist != [Accepted] {
      StageTellsEvents(hist[..|hist| - 1]);
      assert hist == hist[..|hist| - 1] + [hist[|hist| - 1]];
    }
  }

  // ---------------------------------------------------------------- every reachable world

  ghost predicate Reachable(cfg: Config, w: World) {
    exists start, acts :: Init(cfg, start) && LegalRun(cfg, start, acts) && w == Run(cfg, start, acts)
  }

  lemma ReachableIsInv(cfg: Config, w: World)
    requires Reachable(cfg, w)
    ensures Inv(cfg, w)
  {
    hide Inv;
    var start, acts :| Init(cfg, start) && LegalRun(cfg, start, acts) && w == Run(cfg, start, acts);
    InitIsInv(cfg, start);
    RunKeepsInv(cfg, start, acts);
  }

  /**
    Life cycle: what has happened to a connection is the beginning of a life, so it is
    established before any handler and closed, erased and destroyed at most once each and in
    this order; and state_, channel and map entry are those of the point it has reached.
  */
  lemma LifecycleIsOrderly(cfg: Config, w: World, c: nat)
    requires Reachable(cfg, w) && c in w.conns
    ensures var k := w.conns[c];
            && StageAfter(k.hist) == Some(k.stage)
            && (exists n :: k.hist <= Life(n))
            && Matches(k, InTable(cfg, w, c))
            && (k.registered <==> k.stage == Live)
            && (k.index == Added <==> Established in k.hist && Destroyed !in k.hist)
  {
    hide Name, TokensOk;
    ReachableIsInv(cfg, w);
    assert StageOk(cfg, w, c);
    HistoryIsBeginningOfLife(w.conns[c].hist);
    StageTellsEvents(w.conns[c].hist);
  }

  /**
    Nothing is forgotten: a connection that is not finished is in the map, or its destruction
    is queued on its loop or in the hands of the base loop thread; and what is due to it
    next is queued or in the hands of a thread.
  */
  lemma UnfinishedIsReferenced(cfg: Config, w: World, c: nat)
    requires Reachable(cfg, w) && c in w.conns
    ensures var k := w.conns[c];
            && (k.stage != Dead ==>
                  || InTable(cfg, w, c)
                  || Queued(w.loops, k.loop, DestroyConn(c))
                  || Owes(w.loops, cfg.base, PushDestroy(c)))
            && Due(cfg, w.loops, c, k.loop, k.stage)
  {
    hide Name, Placed, ActiveOk;
    ReachableIsInv(cfg, w);
    assert StageOk(cfg, w, c) && TokensOk(cfg, w.loops, c, w.conns[c].loop, w.conns[c].stage);
  }

  lemma ContKeepsQueued(ls: Loops, m: nat, cont: Cont, l: nat, f: Functor)
    requires m in ls
    ensures Queued(SetCont(ls, m, cont), l, f) <==> Queued(ls, l, f)
  {}

  lemma PushKeepsQueued(ls: Loops, m: nat, g: Functor, l: nat, f: Functor)
    requires m in ls && Queued(ls, l, f)
    ensures Queued(Enqueue(ls, m, g), l, f)
  {}

  /** A queued functor stays queued until it is the one its loop runs. */
  lemma QueuedUntilRun(cfg: Config, w: World, a: Action, l: nat, f: Functor)
    requires Reachable(cfg, w) && Enabled(cfg, w, a) && Queued(w.loops, l, f) && !f.Task?
    ensures Queued(Step(cfg, w, a).loops, l, f)
            || (a == RunFunctor(l) && w.loops[l].phase.batch[0] == f)
  {
    hide Name, ConnsOk, SetCont, Enqueue, LoopsOk;
    ReachableIsInv(cfg, w);
    match a
    case Accept(_, _) => ContKeepsQueued(w.loops, cfg.base, PushEstablish(w.nextId), l, f);
    case HandleEvent(m, _) =>
      var c := w.loops[m].phase.active[0];
      DispatchMove(w.loops, w.conns.Keys, m);
      ContKeepsQueued(SetPhase(w.loops, m, Handling(w.loops[m].phase.active[1..])), m, PushRemove(c), l, f);
    case Continue(m) => ContinueKeepsQueued(cfg, w, m, l, f);
    case RunFunctor(m) =>
      PopMove(w.loops, w.conns.Keys, m);
      var g := w.loops[m].phase.batch[0];
      if g.RemoveConn? {
        ContKeepsQueued(SetPhase(w.loops, m, Running(w.loops[m].phase.batch[1..])), m, PushDestroy(g.c), l, f);
      }
    case PushTask(m, k) => PushKeepsQueued(w.loops, m, Task(k), l, f);
    case _ =>
  }

  lemma ContinueKeepsQueued(cfg: Config, w: World, m: nat, l: nat, f: Functor)
    requires Enabled(cfg, w, Continue(m)) && Queued(w.loops, l, f)
    ensures Queued(DoContinue(cfg, w, m).loops, l, f)
  {}

  /** Only connectionDestroyed takes a channel out of its poller. */
  lemma OnlyDestroyRemoves(cfg: Config, w: World, a: Action, c: nat)
    requires Enabled(cfg, w, a) && c in w.conns && c < w.nextId
    requires w.conns[c].index == Added && Step(cfg, w, a).conns[c].index != Added
    ensures a.RunFunctor? && w.loops[a.l].phase.Running? && w.loops[a.l].phase.batch[0] == DestroyConn(c)
  {}

  /**
    Deferred removal: a channel leaves its poller only by a connectionDestroyed functor run by
    its own loop, which at that time is not iterating its active channels.
  */
  lemma RemovalIsDeferred(cfg: Config, w: World, a: Action, c: nat)
    requires Reachable(cfg, w) && Enabled(cfg, w, a) && c in w.conns
    requires w.conns[c].index == Added && Step(cfg, w, a).conns[c].index != Added
    ensures a == RunFunctor(w.conns[c].loop)
    ensures w.loops[w.conns[c].loop].phase.Running? && w.loops[w.conns[c].loop].phase.batch[0] == DestroyConn(c)
  {
    hide Name, LoopsOk, StageAfter, Step, ActiveOk;
    ReachableIsInv(cfg, w);
    assert StageOk(cfg, w, c) && TokensOk(cfg, w.loops, c, w.conns[c].loop, w.conns[c].stage);
    OnlyDestroyRemoves(cfg, w, a, c);
    assert w.loops[a.l].Items()[0] == w.loops[a.l].phase.batch[0];
    assert Queued(w.loops, a.l, DestroyConn(c));
  }

  /** What a loop is about to dispatch is a registered, established connection of its own, once. */
  lemma ActiveChannelsAreAlive(cfg: Config, w: World, l: nat)
    requires Reachable(cfg, w) && l in w.loops && w.loops[l].phase.Handling?
    ensures Distinct(w.loops[l].phase.active)
    ensures forall c | c in w.loops[l].phase.active ::
              c in w.conns && w.conns[c].loop == l && w.conns[c].registered && w.conns[c].index == Added
              && InTable(cfg, w, c)
  {
    hide Name, StageAfter, Due, Placed;
    ReachableIsInv(cfg, w);
    assert LoopOk(w.loops[l], w.conns.Keys);
    forall c | c in w.loops[l].phase.active
      ensures c in w.conns && w.conns[c].loop == l && w.conns[c].registered && w.conns[c].index == Added
              && InTable(cfg, w, c)
    {
      assert IsActive(w.loops, l, c);
      assert StageOk(cfg, w, c) && TokensOk(cfg, w.loops, c, w.conns[c].loop, w.conns[c].stage);
    }
  }

  /**
    The map: connections_ holds exactly the connections accepted and not yet removed, each under
    its own name, and a new connection never takes the name of another.
  */
  lemma TableIsExact(cfg: Config, w: World)
    requires Reachable(cfg, w)
    ensures forall c | c in w.conns :: InTable(cfg, w, c) <==> Erased !in w.conns[c].hist
    ensures forall name | name in w.table :: w.table[name] in w.conns && name == Name(cfg, w.table[name])
    ensures w.nextId <= INT_MAX ==> Name(cfg, w.nextId) !in w.table
  {
    hide Name, TokensOk, StageAfter;
    ReachableIsInv(cfg, w);
    forall c | c in w.conns
      ensures InTable(cfg, w, c) <==> Erased !in w.conns[c].hist
    {
      assert StageOk(cfg, w, c);
      StageTellsEvents(w.conns[c].hist);
    }
    if w.nextId <= INT_MAX {
      NewIdIsNew(cfg, w);
    }
  }

  /** The next piece of work of a loop thread. */
  function NextOf(loop: Loop, l: nat): Action {
    if !loop.cont.Idle? then Continue(l)
    else
      match loop.phase
      case Polling => PollReturn(l, [])
      case Handling(active) => if active == [] then TakeBatch(l) else HandleEvent(l, false)
      case Running(batch) => if batch == [] then EndBatch(l) else RunFunctor(l)
  }

  /** No loop is ever stuck: the conditions under which the steps are defined always hold. */
  lemma LoopsAreNeverStuck(cfg: Config, w: World, l: nat)
    requires Reachable(cfg, w) && l in w.loops
    ensures Enabled(cfg, w, NextOf(w.loops[l], l))
    ensures NextOf(w.loops[l], l).HandleEvent? ==> Enabled(cfg, w, HandleEvent(l, true))
  {
    hide Inv, NextOf, Enabled;
    ReachableIsInv(cfg, w);
    InvMeansNextEnabled(cfg, w, l);
  }

  lemma InvMeansNextEnabled(cfg: Config, w: World, l: nat)
    requires Inv(cfg, w) && l in w.loops
    ensures Enabled(cfg, w, NextOf(w.loops[l], l))
    ensures NextOf(w.loops[l], l).HandleEvent? ==> Enabled(cfg, w, HandleEvent(l, true))
  {
    hide Name, StageAfter, Due, Placed;
    var loop := w.loops[l];
    assert LoopOk(loop, w.conns.Keys);
    if !loop.cont.Idle? {
      assert StageOk(cfg, w, loop.cont.c);
    } else if loop.phase.Running? && loop.phase.batch != [] {
      assert loop.Items()[0] == loop.phase.batch[0];
    } else if loop.phase.Handling? && loop.phase.active != [] {
      assert loop.phase.active[0] in loop.phase.active;
    }
  }

  // ---------------------------------------------------------------- what the steps do

  /** How many events of loop l a run dispatches. */
  function Dispatches(acts: seq<Action>, l: nat): nat {
    if acts == [] then 0
    else (if acts[0].HandleEvent? && acts[0].l == l then 1 else 0) + Dispatches(acts[1..], l)
  }

  lemma StepWhileHandling(cfg: Config, w: World, a: Action, l: nat)
    requires Enabled(cfg, w, a) && l in w.loops && w.loops[l].phase.Handling? && a != TakeBatch(l)
    ensures var v, active := Step(cfg, w, a), w.loops[l].phase.active;
            && l in v.loops
            && if a.HandleEvent? && a.l == l then active != [] && v.loops[l].phase == Handling(active[1..])
               else v.loops[l].phase == Handling(active)
  {
    hide Name;
  }

  lemma {:induction false} DispatchesInOrder(cfg: Config, w: World, acts: seq<Action>, l: nat)
    requires LegalRun(cfg, w, acts) && l in w.loops && w.loops[l].phase.Handling? && TakeBatch(l) !in acts
    ensures var d, active := Run(cfg, w, acts), w.loops[l].phase.active;
            && Dispatches(acts, l) <= |active|
            && l in d.loops && d.loops[l].phase == Handling(active[Dispatches(acts, l)..])
    decreases |acts|
  {
    hide Step, Enabled;
    if acts != [] {
      StepWhileHandling(cfg, w, acts[0], l);
      DispatchesInOrder(cfg, Step(cfg, w, acts[0]), acts[1..], l);
    }
  }

  /**
    Every channel that poll reported is dispatched: after a poll that reported active, and until the
    loop takes its functors, k dispatches leave active[k..] to dispatch, whatever any thread does;
    and the functors are taken only when all have been.
  */
  lemma ReportedAreDispatched(cfg: Config, w: World, l: nat, active: seq<nat>, acts: seq<Action>)
    requires Enabled(cfg, w, PollReturn(l, active))
    requires LegalRun(cfg, Step(cfg, w, PollReturn(l, active)), acts) && TakeBatch(l) !in acts
    ensures var d := Run(cfg, Step(cfg, w, PollReturn(l, active)), acts);
            && Dispatches(acts, l) <= |active|
            && l in d.loops && d.loops[l].phase == Handling(active[Dispatches(acts, l)..])
            && (Enabled(cfg, d, TakeBatch(l)) ==> Dispatches(acts, l) == |active|)
  {
    DispatchesInOrder(cfg, Step(cfg, w, PollReturn(l, active)), acts, l);
  }

  /**
    A dispatch is of the first channel left, once; one that closes leaves the connection disconnected
    and out of the kernel set, and its removal owed by the thread. No other connection changes.
  */
  lemma DispatchHandlesFirst(cfg: Config, w: World, l: nat, closes: bool)
    requires Reachable(cfg, w) && Enabled(cfg, w, HandleEvent(l, closes))
    ensures var c, v := w.loops[l].phase.active[0], Step(cfg, w, HandleEvent(l, closes));
            && c in v.conns && v.conns[c].hist == w.conns[c].hist + (if closes then [Handled, Closed] else [Handled])
            && (closes ==> v.conns[c].stage == Closing && !v.conns[c].registered && Owes(v.loops, l, PushRemove(c)))
            && (!closes ==> v.conns[c].stage == Live && v.conns[c].registered && Owes(v.loops, l, Idle))
            && (forall d | d in w.conns && d != c :: d in v.conns && v.conns[d] == w.conns[d])
            && v.table == w.table
  {
    hide Name, StageAfter, Due, Placed, Inv;
    ActiveChannelsAreAlive(cfg, w, l);
    assert w.loops[l].phase.active[0] in w.loops[l].phase.active;
    LifecycleIsOrderly(cfg, w, w.loops[l].phase.active[0]);
  }

  /** The loop's queue has got one functor more, at its end. */
  predicate Gained(w: World, v: World, l: nat, f: Functor) {
    l in w.loops && l in v.loops && v.loops[l].queue == w.loops[l].queue + [f]
  }

  /**
    A hand-off is made: connectionEstablished and removeConnectionInLoop run at once on their own loop
    and are queued last on another, connectionDestroyed is queued last on the connection's loop.
  */
  lemma HandOffIsMade(cfg: Config, w: World, l: nat)
    requires Reachable(cfg, w) && Enabled(cfg, w, Continue(l))
    ensures var cont, c, v := w.loops[l].cont, w.loops[l].cont.c, Step(cfg, w, Continue(l));
            var io := w.conns[c].loop;
            && c in v.conns
            && (cont.PushEstablish? && io == l ==>
                  v.conns[c].hist == w.conns[c].hist + [Established] && v.conns[c].stage == Live)
            && (cont.PushEstablish? && io != l ==> Gained(w, v, io, Establish(c)) && v.conns == w.conns)
            && (cont.PushRemove? && l == cfg.base ==>
                  && v.conns[c].hist == w.conns[c].hist + [Erased] && !InTable(cfg, v, c)
                  && Owes(v.loops, l, PushDestroy(c)))
            && (cont.PushRemove? && l != cfg.base ==>
                  Gained(w, v, cfg.base, RemoveConn(c)) && v.conns == w.conns && v.table == w.table)
            && (cont.PushDestroy? ==> Gained(w, v, io, DestroyConn(c)) && v.conns == w.conns)
            && (!(cont.PushRemove? && l == cfg.base) ==> Owes(v.loops, l, Idle))
  {
    hide Name, StageAfter, Inv;
  }

  /** A life-cycle functor does its work on its own connection when it is run, and is then gone from the batch. */
  lemma FunctorDoesItsWork(cfg: Config, w: World, l: nat)
    requires Reachable(cfg, w) && Enabled(cfg, w, RunFunctor(l)) && !w.loops[l].phase.batch[0].Task?
    ensures var f, c, v := w.loops[l].phase.batch[0], w.loops[l].phase.batch[0].c, Step(cfg, w, RunFunctor(l));
            && c in v.conns && l in v.loops && v.loops[l].phase == Running(w.loops[l].phase.batch[1..])
            && (f.Establish? ==>
                  v.conns[c].hist == w.conns[c].hist + [Established] && v.conns[c].stage == Live && v.table == w.table)
            && (f.RemoveConn? ==>
                  && v.conns[c].hist == w.conns[c].hist + [Erased] && !InTable(cfg, v, c)
                  && Owes(v.loops, l, PushDestroy(c)))
            && (f.DestroyConn? ==>
                  v.conns[c].hist == w.conns[c].hist + [Destroyed] && v.conns[c].stage == Dead && v.table == w.table)
            && (forall d | d in w.conns && d != c :: d in v.conns && v.conns[d] == w.conns[d])
  {
    hide Name, StageAfter, Inv;
  }

  /** Nothing but the id counter, the loop and the fd stand in the way of a new connection. */
  lemma AcceptIsPossible(cfg: Config, w: World, io: nat, fd: int)
    requires Reachable(cfg, w) && w.nextId <= 2147483647 && io in w.loops
    requires cfg.base in w.loops && w.loops[cfg.base].phase.Handling? && w.loops[cfg.base].cont.Idle?
    requires forall c | c in w.conns && Destroyed !in w.conns[c].hist :: w.conns[c].fd != fd
    ensures Enabled(cfg, w, Accept(io, fd))
  {
    hide Name, StageAfter, Inv;
    forall c | c in w.conns && w.conns[c].stage != Dead
      ensures w.conns[c].fd != fd
    {
      LifecycleIsOrderly(cfg, w, c);
      StageTellsEvents(w.conns[c].hist);
    }
  }

  /** An accepted connection is new, on the loop chosen for it, in the map, and its establishment is owed. */
  lemma AcceptedIsEntered(cfg: Config, w: World, io: nat, fd: int)
    requires Reachable(cfg, w) && Enabled(cfg, w, Accept(io, fd))
    ensures var c, v := w.nextId, Step(cfg, w, Accept(io, fd));
            && c !in w.conns && c in v.conns && v.conns[c].loop == io && v.conns[c].fd == fd
            && v.conns[c].stage == Fresh && v.nextId == c + 1
            && InTable(cfg, v, c) && |v.table| == |w.table| + 1 && Owes(v.loops, cfg.base, PushEstablish(c))
            && (forall d | d in w.conns :: d in v.conns && v.conns[d] == w.conns[d])
  {
    hide Name, StageAfter, Inv;
    ReachableIsInv(cfg, w);
    NewIdIsNew(cfg, w);
    assert Step(cfg, w, Accept(io, fd)).table.Keys == w.table.Keys + {Name(cfg, w.nextId)};
    TableSize(w.table, Name(cfg, w.nextId), w.nextId);
  }

  lemma TableSize(table: map<string, nat>, name: string, c: nat)
    requires name !in table
    ensures |table[name := c]| == |table| + 1
  {
    assert table[name := c].Keys == table.Keys + {name};
  }

  /** shutdown on a connected connection of the calling loop leaves it disconnecting, and nothing else changes. */
  lemma ShutdownDisconnects(cfg: Config, w: World, l: nat, c: nat)
    requires Reachable(cfg, w) && Enabled(cfg, w, CallShutdown(l, c))
    ensures var v := Step(cfg, w, CallShutdown(l, c));
            && c in v.conns && v.conns[c] == w.conns[c].(state := Connections.Disconnecting)
            && v.conns[c].stage == Live && v == w.(conns := v.conns)
            && (forall d | d in w.conns && d != c :: d in v.conns && v.conns[d] == w.conns[d])
  {
    hide Name, StageAfter, Inv;
    LifecycleIsOrderly(cfg, w, c);
  }

  // ---------------------------------------------------------------- from one connection to the life cycle

  /** The fields of a TcpConnection are those the life cycle gives a connection at stage s. */
  predicate Looks(c: Connections.Conn, s: Stage) {
    Matches(Lifecycle.Conn(0, 0, c.state, c.chan.index, c.chan.kernel.Some?, [], s), s != Gone && s != Dead)
  }

  /** The stage a call leaves a connection at. */
  function StageOfCall(s: Stage, op: Connections.Op): Stage {
    match op
    case Establish(_) => Live
    case Dispatch(e) => if CP.ClosesOf(e) > 0 then Closing else s
    case Destroy => Dead
    case _ => s
  }

  /**
    The life cycle abstracts the connection of module Connections: every call takes a connection
    that looks like its stage to one that looks like the next, a dispatch being a close of the
    life cycle exactly when it runs handleClose.
  */
  lemma ConnectionFollowsStages(c: Connections.Conn, op: Connections.Op, s: Stage)
    requires CP.Control(c) && Connections.LegalOp(c, op) && Looks(c, s)
    requires op.Destroy? ==> s == Gone
    ensures Looks(Connections.Step(c, op), StageOfCall(s, op))
  {
    hide Connections.SendInLoop, Connections.HandleEvent, Connections.Acts, RegRun;
    CP.StepKeepsControl(c, op);
    match op
    case Establish(acts) =>
      assert CP.Control(Connections.Established(c));
      CP.ActsAreQuiet(Connections.Established(c), acts);
    case User(act) => CP.ActIsQuiet(c, act);
    case QueuedSend(msg, w) => CP.SendIsQuiet(c, msg, w);
    case Dispatch(e) => CP.EventCloses(c, e);
    case Destroy =>
  }
}
