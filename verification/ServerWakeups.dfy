/**
  The life cycle of connections on loops that really sleep: the product of module Lifecycle, where
  loops have queues and no eventfd, with one copy of module EventLoops for each loop, where
  they have an eventfd and no connections.

  A piece of work that queues a functor moves both sides and leaves the pushing thread between its
  push and its wakeup; the wakeup, the read of the eventfd, quit and the tests of the loop
  are steps of their own, in any order the threads allow.
*/
module ServerWakeups {
  import opened Options
  import EL = EventLoops
  import opened Lifecycle
  import LP = LifecycleProperties
  import LT = LifecycleTheorems

  datatype System = System(world: World, threads: map<nat, EL.State>)

  /** The number under which an event loop knows a functor. */
  function Code(f: Functor): int {
    match f
    case Establish(c) => 4 * c
    case RemoveConn(c) => 4 * c + 1
    case DestroyConn(c) => 4 * c + 2
    case Task(k) => 4 * k + 3
  }

  lemma CodeIsInjective(f: Functor, g: Functor)
    requires Code(f) == Code(g)
    ensures f == g
  {
    assert Code(f) % 4 == Code(g) % 4;
  }

  /** Who pushes a plain task: the loop's own thread or thread t; sawWakeup is what poll reports. */
  datatype SystemAction =
    | Work(a: Action, sawWakeup: bool, own: bool, t: nat)
    | Inner(l: nat, b: EL.Action)

  /** The event loop that a piece of work moves, and how. */
  function Move(cfg: Config, w: World, x: SystemAction): Option<(nat, EL.Action)>
    requires x.Work? && Enabled(cfg, w, x.a)
  {
    match x.a
    case PollReturn(l, _) => Some((l, EL.PollReturn(x.sawWakeup)))
    case Continue(l) => ContinueMove(cfg, w, l)
    case TakeBatch(l) => Some((l, EL.TakeBatch))
    case RunFunctor(l) => Some((l, EL.RunNext))
    case EndBatch(l) => Some((l, EL.EndPending))
    case PushTask(l, k) => Some((l, PushOf(x.own, x.t, Task(k))))
    case _ => None
  }

  function PushOf(own: bool, t: nat, f: Functor): EL.Action {
    if own then EL.LoopPush(Code(f)) else EL.OtherPush(t, Code(f))
  }

  function ContinueMove(cfg: Config, w: World, l: nat): Option<(nat, EL.Action)>
    requires Enabled(cfg, w, Continue(l))
  {
    var c := w.loops[l].cont.c;
    var io := w.conns[c].loop;
    match w.loops[l].cont
    case PushEstablish(_) => if io == l then None else Some((io, PushOf(false, l, Establish(c))))
    case PushRemove(_) => if l == cfg.base then None else Some((cfg.base, PushOf(false, l, RemoveConn(c))))
    case PushDestroy(_) => Some((io, PushOf(io == l, l, DestroyConn(c))))
  }

  /** The thread that does a piece of work in a handler or a functor. */
  function WorkerOf(cfg: Config, a: Action): Option<nat> {
    match a
    case Accept(_, _) => Some(cfg.base)
    case HandleEvent(l, _) => Some(l)
    case CallShutdown(l, _) => Some(l)
    case Continue(l) => Some(l)
    case _ => None
  }

  /** Steps of an event loop that touch neither its queue nor its batch. */
  predicate IsInner(b: EL.Action) {
    b.OtherQuit? || b.OtherWake? || b.LoopStart? || b.LoopTest? || b.ReadWakeup? || b.LoopPushDone?
    || b.LoopQuit? || b.BeginPending?
  }

  predicate SystemEnabled(cfg: Config, s: System, x: SystemAction) {
    match x
    case Work(a, _, _, _) =>
      && Enabled(cfg, s.world, a)
      && (var m := Move(cfg, s.world, x);
          m.Some? ==> m.value.0 in s.threads && EL.Enabled(s.threads[m.value.0], m.value.1))
      && (var k := WorkerOf(cfg, a);
          k.Some? ==> k.value in s.threads && EL.UserCode(s.threads[k.value]))
    case Inner(l, b) =>
      && IsInner(b) && l in s.threads && EL.Enabled(s.threads[l], b)
      && (b.BeginPending? ==>
            l in s.world.loops && s.world.loops[l].phase == Handling([]) && s.world.loops[l].cont.Idle?)
  }

  function SystemStep(cfg: Config, s: System, x: SystemAction): System
    requires SystemEnabled(cfg, s, x)
  {
    match x
    case Work(a, _, _, _) =>
      var m := Move(cfg, s.world, x);
      System(Step(cfg, s.world, a),
             if m.None? then s.threads
             else s.threads[m.value.0 := EL.Step(s.threads[m.value.0], m.value.1)])
    case Inner(l, b) => s.(threads := s.threads[l := EL.Step(s.threads[l], b)])
  }

  predicate SystemLegalRun(cfg: Config, s: System, acts: seq<SystemAction>)
    decreases |acts|
  {
    acts == [] || (SystemEnabled(cfg, s, acts[0]) && SystemLegalRun(cfg, SystemStep(cfg, s, acts[0]), acts[1..]))
  }

  function SystemRun(cfg: Config, s: System, acts: seq<SystemAction>): System
    requires SystemLegalRun(cfg, s, acts)
    decreases |acts|
  {
    if acts == [] then s else SystemRun(cfg, SystemStep(cfg, s, acts[0]), acts[1..])
  }

  predicate SystemInit(cfg: Config, s: System) {
    Init(cfg, s.world) && s.threads.Keys == s.world.loops.Keys && forall l | l in s.threads :: s.threads[l] == EL.INIT
  }

  // ---------------------------------------------------------------- the two sides agree

  /** The same functors in the same order; only plain tasks are queued by a loop thread outside loop(). */
  predicate SameFunctors(fs: seq<Functor>, items: seq<EL.Item>) {
    |fs| == |items| && forall i | 0 <= i < |fs| :: items[i].task == Code(fs[i]) && (items[i].stray ==> fs[i].Task?)
  }

  /** What an event loop holds tells which life-cycle functors are queued, and in which order. */
  lemma {:induction false} ItemsDetermineFunctors(fs: seq<Functor>, gs: seq<Functor>, items: seq<EL.Item>)
    requires SameFunctors(fs, items) && SameFunctors(gs, items)
    ensures fs == gs
  {
    forall i | 0 <= i < |fs|
      ensures fs[i] == gs[i]
    {
      CodeIsInjective(fs[i], gs[i]);
    }
  }

  predicate SamePhase(loop: Loop, s: EL.State) {
    match loop.phase
    case Polling => s.pc in {EL.Outside, EL.Test, EL.Poll} && loop.cont.Idle?
    case Handling(active) => s.pc == EL.Handle || (s.pc == EL.Swap && active == [] && loop.cont.Idle?)
    case Running(batch) => s.pc == EL.RunBatch && SameFunctors(batch, s.batch)
  }

  predicate Link(loop: Loop, s: EL.State) {
    SameFunctors(loop.queue, s.pending) && SamePhase(loop, s) && EL.Inv(s)
  }

  ghost predicate SystemInv(cfg: Config, s: System) {
    && LP.Inv(cfg, s.world) && s.threads.Keys == s.world.loops.Keys
    && forall l | l in s.threads :: Link(s.world.loops[l], s.threads[l])
  }

  /** Queueing on both sides at once; the loop itself stays where it is. */
  lemma PushKeepsLink(loop: Loop, s: EL.State, own: bool, t: nat, f: Functor)
    requires Link(loop, s) && EL.Enabled(s, PushOf(own, t, f)) && (own && s.pc == EL.Outside ==> f.Task?)
    ensures Link(loop.(queue := loop.queue + [f]), EL.Step(s, PushOf(own, t, f)))
  {
    hide EL.Inv;
    EL.StepKeepsInv(s, PushOf(own, t, f));
  }

  /** A change of the hand-off while user code runs. */
  lemma ContKeepsLink(loop: Loop, s: EL.State, cont: Cont)
    requires Link(loop, s) && (cont.Idle? || (!loop.phase.Polling? && EL.UserCode(s)))
    ensures Link(loop.(cont := cont), s)
  {
    hide EL.Inv, SameFunctors;
  }

  lemma InnerKeepsLink(loop: Loop, s: EL.State, b: EL.Action)
    requires Link(loop, s) && IsInner(b) && EL.Enabled(s, b)
    requires b.BeginPending? ==> loop.phase == Handling([]) && loop.cont.Idle?
    ensures Link(loop, EL.Step(s, b))
  {
    hide EL.Inv, SameFunctors;
    EL.StepKeepsInv(s, b);
  }

  lemma PollKeepsLink(loop: Loop, s: EL.State, active: seq<nat>, saw: bool)
    requires Link(loop, s) && loop.phase.Polling? && EL.Enabled(s, EL.PollReturn(saw))
    ensures Link(loop.(phase := Handling(active)), EL.Step(s, EL.PollReturn(saw)))
  {
    hide EL.Inv, SameFunctors;
    EL.StepKeepsInv(s, EL.PollReturn(saw));
  }

  lemma TakeKeepsLink(loop: Loop, s: EL.State)
    requires Link(loop, s) && loop.phase == Handling([]) && EL.Enabled(s, EL.TakeBatch)
    ensures Link(loop.(phase := Running(loop.queue), queue := []), EL.Step(s, EL.TakeBatch))
  {
    hide EL.Inv;
    EL.StepKeepsInv(s, EL.TakeBatch);
  }

  lemma PopKeepsLink(loop: Loop, s: EL.State, cont: Cont)
    requires Link(loop, s) && loop.phase.Running? && loop.phase.batch != [] && EL.Enabled(s, EL.RunNext)
    ensures Link(loop.(phase := Running(loop.phase.batch[1..]), cont := cont), EL.Step(s, EL.RunNext))
  {
    hide EL.Inv;
    EL.StepKeepsInv(s, EL.RunNext);
  }

  lemma EndKeepsLink(loop: Loop, s: EL.State)
    requires Link(loop, s) && loop.phase.Running? && loop.cont.Idle? && EL.Enabled(s, EL.EndPending)
    ensures Link(loop.(phase := Polling), EL.Step(s, EL.EndPending))
  {
    hide EL.Inv, SameFunctors;
    EL.StepKeepsInv(s, EL.EndPending);
  }

  /** What a hand-off does to the loops: the thread that owed it, then the queue it goes to. */
  lemma ContinueKeepsLinks(cfg: Config, s: System, x: SystemAction)
    requires SystemInv(cfg, s) && SystemEnabled(cfg, s, x) && x.Work? && x.a.Continue?
    ensures var t := SystemStep(cfg, s, x);
            t.threads.Keys == t.world.loops.Keys && forall d | d in t.threads :: Link(t.world.loops[d], t.threads[d])
  {
    hide LP.Inv, Link, EL.Step, EL.Enabled, EL.UserCode, Name;
    var l := x.a.l;
    var loop, c := s.world.loops[l], s.world.loops[l].cont.c;
    assert Link(loop, s.threads[l]);
    assert !loop.phase.Polling? by {
      OwingMeansAwake(loop, s.threads[l]);
    }
    ContKeepsLink(loop, s.threads[l], Idle);
    ContKeepsLink(loop, s.threads[l], PushDestroy(c));
    var m := ContinueMove(cfg, s.world, l);
    if m.Some? {
      var target := m.value.0;
      var f := if loop.cont.PushEstablish? then Establish(c) else if loop.cont.PushRemove? then RemoveConn(c)
               else DestroyConn(c);
      var own := target == l && loop.cont.PushDestroy?;
      assert m.value.1 == PushOf(own, l, f);
      if own {
        assert s.threads[l].pc != EL.Outside by {
          AwakeMeansInside(loop, s.threads[l]);
        }
      }
      PushKeepsLink(SetCont(s.world.loops, l, Idle)[target], s.threads[target], own, l, f);
    }
  }

  lemma OwingMeansAwake(loop: Loop, s: EL.State)
    requires Link(loop, s) && !loop.cont.Idle?
    ensures !loop.phase.Polling?
  {}

  lemma AwakeMeansInside(loop: Loop, s: EL.State)
    requires Link(loop, s) && !loop.phase.Polling?
    ensures s.pc != EL.Outside
  {}

  lemma WorkKeepsLinks(cfg: Config, s: System, x: SystemAction)
    requires SystemInv(cfg, s) && SystemEnabled(cfg, s, x) && x.Work?
    ensures var t := SystemStep(cfg, s, x);
            t.threads.Keys == t.world.loops.Keys && forall d | d in t.threads :: Link(t.world.loops[d], t.threads[d])
  {
    hide LP.Inv, Link, EL.Step, EL.Enabled, EL.UserCode, Name;
    var w := s.world;
    match x.a
    case PollReturn(l, active) => PollKeepsLink(w.loops[l], s.threads[l], active, x.sawWakeup);
    case Accept(io, fd) =>
      ContKeepsLink(w.loops[cfg.base], s.threads[cfg.base], PushEstablish(w.nextId));
    case HandleEvent(l, closes) =>
      var c := w.loops[l].phase.active[0];
      DispatchKeepsLink(w.loops[l], s.threads[l], PushRemove(c));
      DispatchKeepsLink(w.loops[l], s.threads[l], Idle);
    case CallShutdown(l, c) =>
    case Continue(l) => ContinueKeepsLinks(cfg, s, x);
    case TakeBatch(l) => TakeKeepsLink(w.loops[l], s.threads[l]);
    case RunFunctor(l) =>
      PopKeepsLink(w.loops[l], s.threads[l], Idle);
      var f := w.loops[l].phase.batch[0];
      if f.RemoveConn? {
        PopKeepsLink(w.loops[l], s.threads[l], PushDestroy(f.c));
      }
    case EndBatch(l) => EndKeepsLink(w.loops[l], s.threads[l]);
    case PushTask(l, k) => PushKeepsLink(w.loops[l], s.threads[l], x.own, x.t, Task(k));
  }

  lemma DispatchKeepsLink(loop: Loop, s: EL.State, cont: Cont)
    requires Link(loop, s) && loop.phase.Handling? && loop.phase.active != []
    ensures Link(loop.(phase := Handling(loop.phase.active[1..]), cont := cont), s)
  {
    hide EL.Inv, SameFunctors;
  }

  lemma SystemStepKeepsInv(cfg: Config, s: System, x: SystemAction)
    requires SystemInv(cfg, s) && SystemEnabled(cfg, s, x)
    ensures SystemInv(cfg, SystemStep(cfg, s, x))
  {
    hide LP.Inv, Link, Step, EL.Step, EL.Enabled;
    match x
    case Work(a, _, _, _) =>
      LP.StepKeepsInv(cfg, s.world, a);
      WorkKeepsLinks(cfg, s, x);
    case Inner(l, b) => InnerKeepsLink(s.world.loops[l], s.threads[l], b);
  }

  lemma {:induction false} SystemRunKeepsInv(cfg: Config, s: System, acts: seq<SystemAction>)
    requires SystemInv(cfg, s) && SystemLegalRun(cfg, s, acts)
    ensures SystemInv(cfg, SystemRun(cfg, s, acts))
    decreases |acts|
  {
    hide SystemInv, SystemStep, SystemEnabled;
    if acts != [] {
      SystemStepKeepsInv(cfg, s, acts[0]);
      SystemRunKeepsInv(cfg, SystemStep(cfg, s, acts[0]), acts[1..]);
    }
  }

  // ---------------------------------------------------------------- every reachable system

  ghost predicate SystemReachable(cfg: Config, s: System) {
    exists start, acts ::
      SystemInit(cfg, start) && SystemLegalRun(cfg, start, acts) && s == SystemRun(cfg, start, acts)
  }

  lemma SystemReachableIsInv(cfg: Config, s: System)
    requires SystemReachable(cfg, s)
    ensures SystemInv(cfg, s)
  {
    hide SystemStep, SystemEnabled, LP.Inv;
    var start, acts :| SystemInit(cfg, start) && SystemLegalRun(cfg, start, acts) && s == SystemRun(cfg, start, acts);
    LP.InitIsInv(cfg, start.world);
    SystemRunKeepsInv(cfg, start, acts);
  }

  /**
    No life-cycle step is slept on: a loop about to poll with connectionEstablished,
    removeConnectionInLoop or connectionDestroyed queued finds its eventfd readable, or some
    thread is between its push and its wakeup.
  */
  lemma LifecycleWorkIsAnnounced(cfg: Config, s: System, l: nat, f: Functor)
    requires SystemReachable(cfg, s) && l in s.threads && s.threads[l].pc == EL.Poll
    requires LP.Queued(s.world.loops, l, f) && !f.Task?
    ensures s.threads[l].counter > 0 || s.threads[l].pushing != {}
  {
    hide LP.Inv;
    SystemReachableIsInv(cfg, s);
    assert Link(s.world.loops[l], s.threads[l]);
    var queue := s.world.loops[l].queue;
    assert s.world.loops[l].Items() == queue;
    var i :| 0 <= i < |queue| && queue[i] == f;
    assert !s.threads[l].pending[i].stray;
  }

  /** Every loop is blocked in poll, and no call of any thread is in flight. */
  predicate AllBlocked(s: System) {
    forall l | l in s.threads ::
      s.threads[l].pc == EL.Poll && s.threads[l].counter == 0 && s.threads[l].pushing == {}
  }

  /**
    No connection is stranded: whenever all loops sleep, every connection ever accepted is either
    established and not closed, and in the map, or wholly finished.
  */
  lemma AsleepMeansSettled(cfg: Config, s: System, c: nat)
    requires SystemReachable(cfg, s) && AllBlocked(s) && c in s.world.conns
    ensures s.world.conns[c].stage == Live || s.world.conns[c].stage == Dead
    ensures s.world.conns[c].stage == Live ==> LP.InTable(cfg, s.world, c) && s.world.conns[c].registered
  {
    hide Name, LP.Placed, LP.ActiveOk, StageAfter, LP.LoopsOk, EL.Inv, SameFunctors;
    SystemReachableIsInv(cfg, s);
    var k := s.world.conns[c];
    assert LP.StageOk(cfg, s.world, c) && LP.TokensOk(cfg, s.world.loops, c, k.loop, k.stage);
    forall l | l in s.threads
      ensures s.world.loops[l].cont.Idle?
      ensures forall f | f in s.world.loops[l].Items() :: f.Task?
    {
      assert Link(s.world.loops[l], s.threads[l]);
      forall f | f in s.world.loops[l].Items()
        ensures f.Task?
      {
        if !f.Task? {
          LifecycleWorkIsAnnounced(cfg, s, l, f);
          assert false;
        }
      }
    }
  }

  // ---------------------------------------------------------------- no deadlock

  /** A piece of work that needs no choice of thread. */
  function Just(a: Action): SystemAction {
    Work(a, false, false, 0)
  }

  /**
    The next step of the thread of loop l: first the wakeup it owes to itself or to the loop it is
    about to push to, then what its program counter says.
  */
  function NextStep(cfg: Config, s: System, l: nat): SystemAction
    requires l in s.threads && l in s.world.loops && Enabled(cfg, s.world, LT.NextOf(s.world.loops[l], l))
  {
    var t, loop := s.threads[l], s.world.loops[l];
    if t.selfPushed then Inner(l, EL.LoopPushDone)
    else
      match t.pc
      case Outside => Inner(l, EL.LoopStart)
      case Test => Inner(l, EL.LoopTest)
      case Handle =>
        if loop.cont.Idle? && loop.phase == Handling([])
        then Inner(l, if t.reported then EL.ReadWakeup else EL.BeginPending)
        else OrWake(cfg, s, l, LT.NextOf(loop, l))
      case _ => OrWake(cfg, s, l, LT.NextOf(loop, l))
  }

  /** The work a, or, before a push, the wakeup that the thread still owes to the same loop. */
  function OrWake(cfg: Config, s: System, l: nat, a: Action): SystemAction
    requires Enabled(cfg, s.world, a)
  {
    var m := Move(cfg, s.world, Just(a));
    if m.Some? && m.value.0 in s.threads && m.value.1.OtherPush?
       && l in s.threads[m.value.0].pushing + s.threads[m.value.0].quitting
    then Inner(m.value.0, EL.OtherWake(l)) else Just(a)
  }

  /**
    No deadlock: in every reachable system, however the threads were interleaved, every loop thread
    has a step it can make now.
  */
  lemma SystemNeverStuck(cfg: Config, s: System, l: nat)
    requires SystemReachable(cfg, s) && l in s.threads
    ensures l in s.world.loops && Enabled(cfg, s.world, LT.NextOf(s.world.loops[l], l))
    ensures SystemEnabled(cfg, s, NextStep(cfg, s, l))
  {
    hide LP.Inv, Link, Name, Enabled, SystemEnabled;
    SystemReachableIsInv(cfg, s);
    LT.InvMeansNextEnabled(cfg, s.world, l);
    var loop := s.world.loops[l];
    assert Link(loop, s.threads[l]);
    if s.threads[l].selfPushed || (loop.cont.Idle? && !loop.phase.Running?) {
      IdleThreadHasStep(cfg, s, l);
    } else if !loop.cont.Idle? {
      OwingThreadHasStep(cfg, s, l);
    } else {
      RunningThreadHasStep(cfg, s, l);
    }
  }

  /** Between two pushes, in poll, at the tests, and in the handlers. */
  lemma IdleThreadHasStep(cfg: Config, s: System, l: nat)
    requires l in s.threads && l in s.world.loops && Enabled(cfg, s.world, LT.NextOf(s.world.loops[l], l))
    requires Link(s.world.loops[l], s.threads[l])
    requires s.threads[l].selfPushed || (s.world.loops[l].cont.Idle? && !s.world.loops[l].phase.Running?)
    ensures SystemEnabled(cfg, s, NextStep(cfg, s, l))
  {
    hide SameFunctors, Name;
  }

  /** In a functor or between two functors. */
  lemma RunningThreadHasStep(cfg: Config, s: System, l: nat)
    requires l in s.threads && l in s.world.loops && Enabled(cfg, s.world, LT.NextOf(s.world.loops[l], l))
    requires Link(s.world.loops[l], s.threads[l])
    requires !s.threads[l].selfPushed && s.world.loops[l].cont.Idle? && s.world.loops[l].phase.Running?
    ensures SystemEnabled(cfg, s, NextStep(cfg, s, l))
  {
    hide Name, EL.Inv;
    BatchesMatch(s.world.loops[l], s.threads[l]);
  }

  /** With a hand-off to make. */
  lemma OwingThreadHasStep(cfg: Config, s: System, l: nat)
    requires SystemInv(cfg, s) && l in s.threads && Enabled(cfg, s.world, LT.NextOf(s.world.loops[l], l))
    requires !s.threads[l].selfPushed && !s.world.loops[l].cont.Idle?
    ensures SystemEnabled(cfg, s, NextStep(cfg, s, l))
  {
    hide LP.Inv, SameFunctors, Name, EL.Inv;
    assert Link(s.world.loops[l], s.threads[l]);
    assert EL.UserCode(s.threads[l]);
    MoveTargetExists(cfg, s, l);
  }

  lemma BatchesMatch(loop: Loop, t: EL.State)
    requires Link(loop, t) && t.pc == EL.RunBatch
    ensures loop.phase.Running? && |t.batch| == |loop.phase.batch|
  {}

  lemma MoveTargetExists(cfg: Config, s: System, l: nat)
    requires SystemInv(cfg, s) && l in s.threads && Enabled(cfg, s.world, LT.NextOf(s.world.loops[l], l))
    ensures var m := Move(cfg, s.world, Just(LT.NextOf(s.world.loops[l], l)));
            m.Some? ==> m.value.0 in s.threads
  {
    hide LP.Inv, Link;
  }
}
