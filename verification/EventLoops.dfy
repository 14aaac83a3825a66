/**
  The event loop and its cross-thread functor queue (src/EventLoop.cc) as a step system: the
  loop thread with a program counter, any number of other threads, the list of pending
  functors behind its mutex, the eventfd counter and the two atomic flags. One action is what
  runs without interference: a critical section, a flag access, a read or write of the eventfd.
*/
module EventLoops {

  /** Where the loop thread stands. */
  datatype Pc =
    | Outside      // not inside loop()
    | Test         // at the test of quit_
    | Poll         // in or before epoll_wait
    | Handle       // dispatching activeChannels_
    | Swap         // callingPendingFunctors_ set, functors not taken yet
    | RunBatch     // running the functors taken

  /**
    A functor, with the number of batches taken before it was queued, and whether the loop
    thread queued it while outside loop().
  */
  datatype Item = Item(task: int, epoch: nat, stray: bool)

  datatype State = State(
    pc: Pc,
    quit: bool,
    calling: bool,              // callingPendingFunctors_
    counter: nat,               // eventfd
    reported: bool,             // the last poll reported the wakeup channel, not read yet
    pending: seq<Item>,         // pendingFunctors_
    batch: seq<Item>,           // the local vector of doPendingFunctors, from the next functor on
    selfPushed: bool,           // the loop thread is between push and wakeup test of queueInLoop
    pushing: set<nat>,          // other threads between push and wakeup of queueInLoop
    quitting: set<nat>,         // other threads between the store and the wakeup of quit
    // history
    pushed: seq<Item>,          // everything queued, in push order
    executed: seq<Item>,        // functors started
    batches: nat)               // batches taken

  const INIT := State(Outside, false, false, 0, false, [], [], false, {}, {}, [], [], 0)

  const COUNTER_MAX: nat := 0xffff_ffff_ffff_fffe

  datatype Action =
    | OtherPush(t: nat, task: int)
    | OtherQuit(t: nat)
    | OtherWake(t: nat)
    | LoopStart
    | LoopTest
    | PollReturn(sawWakeup: bool)
    | ReadWakeup
    | LoopPush(task: int)
    | LoopPushDone
    | LoopQuit
    | BeginPending
    | TakeBatch
    | RunNext
    | EndPending

  /** write(2) of 1 to a non-blocking eventfd; it fails, and leaves the counter, at the maximum. */
  function Bump(counter: nat): nat {
    if counter < COUNTER_MAX then counter + 1 else counter
  }

  /** User code can run on the loop thread: in a handler, in a functor, or outside loop(). */
  predicate UserCode(s: State) {
    s.pc in {Outside, Handle, RunBatch} && !s.selfPushed
  }

  predicate Enabled(s: State, a: Action) {
    match a
    case OtherPush(t, _) => t !in s.pushing + s.quitting
    case OtherQuit(t) => t !in s.pushing + s.quitting
    case OtherWake(t) => t in s.pushing + s.quitting
    case LoopStart => s.pc == Outside && !s.selfPushed
    case LoopTest => s.pc == Test
    case PollReturn(sawWakeup) => s.pc == Poll && (sawWakeup ==> s.counter > 0)
    case ReadWakeup => s.pc == Handle && s.reported && !s.selfPushed
    case LoopPush(_) => UserCode(s)
    case LoopPushDone => s.selfPushed
    case LoopQuit => UserCode(s)
    case BeginPending => s.pc == Handle && !s.reported && !s.selfPushed  // every channel reported is handled
    case TakeBatch => s.pc == Swap
    case RunNext => s.pc == RunBatch && s.batch != [] && !s.selfPushed
    case EndPending => s.pc == RunBatch && s.batch == [] && !s.selfPushed
  }

  /** The critical section of queueInLoop. */
  function Push(s: State, task: int, stray: bool): State {
    var item := Item(task, s.batches, stray);
    s.(pending := s.pending + [item], pushed := s.pushed + [item])
  }

  function Step(s: State, a: Action): State
    requires Enabled(s, a)
  {
    match a
    case OtherPush(t, task) => Push(s, task, false).(pushing := s.pushing + {t})
    case OtherQuit(t) => s.(quit := true, quitting := s.quitting + {t})
    case OtherWake(t) => s.(counter := Bump(s.counter), pushing := s.pushing - {t}, quitting := s.quitting - {t})
    case LoopStart => s.(pc := Test, quit := false)
    case LoopTest => s.(pc := if s.quit then Outside else Poll)
    case PollReturn(sawWakeup) => s.(pc := Handle, reported := sawWakeup)
    case ReadWakeup => s.(counter := 0, reported := false)
    case LoopPush(task) => Push(s, task, s.pc == Outside).(selfPushed := true)
    case LoopPushDone => s.(selfPushed := false, counter := if s.calling then Bump(s.counter) else s.counter)
    case LoopQuit => s.(quit := true)
    case BeginPending => s.(pc := Swap, calling := true)
    case TakeBatch => s.(pc := RunBatch, batch := s.pending, pending := [], batches := s.batches + 1)
    case RunNext => s.(batch := s.batch[1..], executed := s.executed + [s.batch[0]])
    case EndPending => s.(pc := Test, calling := false)
  }

  predicate LegalRun(s: State, acts: seq<Action>)
    decreases |acts|
  {
    acts == [] || (Enabled(s, acts[0]) && LegalRun(Step(s, acts[0]), acts[1..]))
  }

  function Run(s: State, acts: seq<Action>): State
    requires LegalRun(s, acts)
    decreases |acts|
  {
    if acts == [] then s else Run(Step(s, acts[0]), acts[1..])
  }

  lemma {:induction false} RunCompose(s: State, first: seq<Action>, second: seq<Action>)
    requires LegalRun(s, first) && LegalRun(Run(s, first), second)
    ensures LegalRun(s, first + second) && Run(s, first + second) == Run(Run(s, first), second)
    decreases |first|
  {
    if first == [] {
      assert first + second == second;
    } else {
      assert (first + second)[0] == first[0] && (first + second)[1..] == first[1..] + second;
      RunCompose(Step(s, first[0]), first[1..], second);
    }
  }

  // ---------------------------------------------------------------- invariants

  /** Every pending functor was queued by the loop thread outside loop(). */
  predicate AllStray(pending: seq<Item>) {
    forall i | 0 <= i < |pending| :: pending[i].stray
  }

  /** The flags and the program counter agree. */
  predicate Flags(s: State) {
    && (s.calling <==> s.pc == Swap || s.pc == RunBatch)
    && (s.batch != [] ==> s.pc == RunBatch)
    && (s.selfPushed ==> s.pc == Outside || s.pc == Handle || s.pc == RunBatch)
    && (s.reported ==> s.pc == Handle)
  }

  /** From taking a batch to the end of the next poll, no functor goes unannounced. */
  predicate Announced(s: State) {
    s.pc == Handle || s.pc == Swap || AllStray(s.pending)
    || s.counter > 0 || s.pushing != {} || (s.selfPushed && s.calling)
  }

  /** No quit goes unannounced. */
  predicate QuitHeard(s: State) {
    s.pc == Poll && s.quit ==> s.counter > 0 || s.quitting != {}
  }

  predicate Conserved(s: State) {
    && s.executed + s.batch + s.pending == s.pushed
    && (forall i | 0 <= i < |s.pending| :: s.pending[i].epoch == s.batches)
    && (forall i | 0 <= i < |s.batch| :: s.batch[i].epoch + 1 == s.batches)
  }

  predicate Inv(s: State) {
    Flags(s) && Announced(s) && QuitHeard(s) && Conserved(s)
  }

  lemma StepKeepsFlags(s: State, a: Action)
    requires Flags(s) && Enabled(s, a)
    ensures Flags(Step(s, a))
  {}

  lemma StepKeepsAnnounced(s: State, a: Action)
    requires Flags(s) && Announced(s) && Enabled(s, a)
    ensures Announced(Step(s, a))
  {}

  lemma StepKeepsQuitHeard(s: State, a: Action)
    requires QuitHeard(s) && Enabled(s, a)
    ensures QuitHeard(Step(s, a))
  {}

  lemma PushConserves(s: State, task: int, stray: bool)
    requires Conserved(s)
    ensures Conserved(Push(s, task, stray))
  {}

  lemma StepConserves(s: State, a: Action)
    requires Flags(s) && Conserved(s) && Enabled(s, a)
    ensures Conserved(Step(s, a))
  {
    match a
    case OtherPush(t, task) => PushConserves(s, task, false);
    case LoopPush(task) => PushConserves(s, task, s.pc == Outside);
    case RunNext => assert s.executed + [s.batch[0]] + s.batch[1..] == s.executed + s.batch;
    case TakeBatch => assert s.executed + s.batch + s.pending == s.executed + s.pending + [];
    case _ =>
  }

  lemma StepKeepsInv(s: State, a: Action)
    requires Inv(s) && Enabled(s, a)
    ensures Inv(Step(s, a))
  {
    StepKeepsFlags(s, a);
    StepKeepsAnnounced(s, a);
    StepKeepsQuitHeard(s, a);
    StepConserves(s, a);
  }

  lemma {:induction false} RunKeepsInv(s: State, acts: seq<Action>)
    requires Inv(s) && LegalRun(s, acts)
    ensures Inv(Run(s, acts))
    decreases |acts|
  {
    if acts != [] {
      StepKeepsInv(s, acts[0]);
      RunKeepsInv(Step(s, acts[0]), acts[1..]);
    }
  }

  // ---------------------------------------------------------------- theorems over all interleavings

  /**
    No lost wakeup: in every interleaving, when the loop thread is about to poll and some
    functor is pending that was not queued by the loop thread outside loop(), the eventfd is
    readable or some thread is between its push and its wakeup.
  */
  lemma NoLostWakeup(acts: seq<Action>)
    requires LegalRun(INIT, acts)
    ensures var s := Run(INIT, acts);
            s.pc == Poll && !AllStray(s.pending) ==> s.counter > 0 || s.pushing != {}
  {
    RunKeepsInv(INIT, acts);
  }

  /** The exception is real: one functor queued by the loop thread before loop() is slept on. */
  lemma StrayPushIsLost()
    ensures exists acts :: LegalRun(INIT, acts) &&
              var s := Run(INIT, acts);
              s.pc == Poll && s.pending != [] && s.counter == 0 && s.pushing == {} && s.quitting == {}
  {
    var a := [LoopPush(0), LoopPushDone, LoopStart, LoopTest];
    var s1 := Step(INIT, a[0]);
    var s2 := Step(s1, a[1]);
    var s3 := Step(s2, a[2]);
    var s4 := Step(s3, a[3]);
    assert a[3..] == [LoopTest] && a[3..][1..] == [];
    assert LegalRun(s4, []) && Run(s4, []) == s4;
    assert LegalRun(s3, a[3..]) && Run(s3, a[3..]) == s4;
    assert a[2..][1..] == a[3..];
    assert LegalRun(s2, a[2..]) && Run(s2, a[2..]) == s4;
    assert a[1..][1..] == a[2..];
    assert LegalRun(s1, a[1..]) && Run(s1, a[1..]) == s4;
    assert LegalRun(INIT, a) && Run(INIT, a) == s4;
  }

  /**
    A loop blocked in poll with no call in flight has been asked nothing it has not done: no
    quit, and every functor queued has been started but those queued outside loop() by its
    own thread.
  */
  lemma BlockedMeansIdle(acts: seq<Action>)
    requires LegalRun(INIT, acts)
    ensures var s := Run(INIT, acts);
            s.pc == Poll && s.counter == 0 && s.pushing == {} && s.quitting == {} ==>
              !s.quit && AllStray(s.pending) && s.pushed == s.executed + s.pending
  {
    RunKeepsInv(INIT, acts);
    var s := Run(INIT, acts);
    assert s.batch == [] ==> s.executed + s.batch == s.executed;
  }

  /**
    Conservation: functors started, then the rest of the batch, then the pending ones, are
    everything ever queued by any thread, in push order; so functors start in push order, each
    once. A functor runs in the batch taken
    next after it was queued, so work queued by a functor never joins the running batch.
  */
  lemma FunctorsAreConserved(acts: seq<Action>)
    requires LegalRun(INIT, acts)
    ensures var s := Run(INIT, acts);
            && s.executed + s.batch + s.pending == s.pushed && s.executed <= s.pushed
            && (s.pc == Poll || s.pc == Outside || s.pc == Test ==> s.executed + s.pending == s.pushed)
            && (forall i | 0 <= i < |s.batch| :: s.batch[i].epoch + 1 == s.batches)
            && (forall i | 0 <= i < |s.pending| :: s.pending[i].epoch == s.batches)
  {
    RunKeepsInv(INIT, acts);
    var s := Run(INIT, acts);
    assert s.pushed[..|s.executed|] == s.executed;
    if s.batch == [] {
      assert s.executed + s.batch == s.executed;
    }
  }

  /** How often an action occurs in a run. */
  function Polls(acts: seq<Action>): nat {
    if acts == [] then 0 else (if acts[0].PollReturn? then 1 else 0) + Polls(acts[1..])
  }

  function Starts(acts: seq<Action>): nat {
    if acts == [] then 0 else (if acts[0].RunNext? then 1 else 0) + Starts(acts[1..])
  }

  lemma StepInBatch(s: State, a: Action)
    requires s.pc == RunBatch && Enabled(s, a) && a != EndPending
    ensures var d := Step(s, a);
            && d.pc == RunBatch
            && if a.RunNext? then d.batch == s.batch[1..] && d.executed == s.executed + [s.batch[0]]
               else d.batch == s.batch && d.executed == s.executed
  {}

  /**
    One batch: from the moment it is taken until doPendingFunctors ends, whatever any thread
    queues, the functors started are a prefix of the batch, in order, and each of them once.
  */
  lemma {:induction false} BatchIsFixed(s: State, acts: seq<Action>)
    requires s.pc == RunBatch && LegalRun(s, acts) && EndPending !in acts
    ensures var d := Run(s, acts);
            && d.pc == RunBatch
            && Starts(acts) <= |s.batch|
            && d.batch == s.batch[Starts(acts)..]
            && d.executed == s.executed + s.batch[..Starts(acts)]
    decreases |acts|
  {
    hide Step;
    if acts != [] {
      StepInBatch(s, acts[0]);
      BatchIsFixed(Step(s, acts[0]), acts[1..]);
    }
  }

  /**
    Prompt quit: once quit_ is set while the loop runs, and until loop() is entered again, the
    loop polls at most once more, and that poll does not block: the eventfd is readable or
    the quitting thread is about to make it so.
  */
  lemma {:induction false} PromptQuit(s: State, acts: seq<Action>)
    requires Inv(s) && s.quit && LegalRun(s, acts) && LoopStart !in acts
    ensures var d := Run(s, acts);
            && d.quit
            && Polls(acts) + (if d.pc == Poll then 1 else 0) <= (if s.pc == Poll then 1 else 0)
            && (d.pc == Poll ==> d.counter > 0 || d.quitting != {})
    decreases |acts|
  {
    hide Conserved;
    if acts != [] {
      StepKeepsInv(s, acts[0]);
      PromptQuit(Step(s, acts[0]), acts[1..]);
    }
  }

  /** quit_ is set by a call of quit, by any thread, and by nothing else; only entering loop() clears it. */
  lemma {:induction false} QuitIsRemembered(s: State, acts: seq<Action>)
    requires LegalRun(s, acts) && LoopStart !in acts
    ensures Run(s, acts).quit <==> s.quit || exists i | 0 <= i < |acts| :: acts[i].OtherQuit? || acts[i].LoopQuit?
    ensures Enabled(Run(s, acts), LoopStart) ==> !Step(Run(s, acts), LoopStart).quit
    decreases |acts|
  {
    hide Run;
    if acts == [] {
      NoActs(s);
    } else {
      var later := acts[1..];
      QuitIsRemembered(Step(s, acts[0]), later);
      FirstAct(s, acts);
      assert forall i | 0 < i < |acts| :: acts[i] == later[i - 1];
      assert forall i | 0 <= i < |later| :: later[i] == acts[i + 1];
    }
  }

  lemma NoActs(s: State)
    ensures Run(s, []) == s
  {}

  lemma FirstAct(s: State, acts: seq<Action>)
    requires acts != [] && LegalRun(s, acts)
    ensures Run(s, acts) == Run(Step(s, acts[0]), acts[1..])
  {
    hide Step;
  }

  // ---------------------------------------------------------------- the eventfd counter

  /** The wakeups of a run: one for each call by another thread, and one for each push of a functor. */
  function Wakeups(s: State, acts: seq<Action>): nat
    requires LegalRun(s, acts)
    decreases |acts|
  {
    if acts == [] then 0
    else
      (if acts[0].OtherWake? || (acts[0].LoopPushDone? && s.pc == RunBatch) then 1 else 0)
      + Wakeups(Step(s, acts[0]), acts[1..])
  }

  /** One step adds one to the eventfd exactly when it is a wakeup, short of its maximum; a read empties it. */
  lemma WakeupAddsOne(s: State, a: Action)
    requires Flags(s) && Enabled(s, a)
    ensures var d := Step(s, a);
            && (a.ReadWakeup? ==> d.counter == 0 && !d.reported)
            && (!a.ReadWakeup? && !(a.OtherWake? || (a.LoopPushDone? && s.pc == RunBatch)) ==> d.counter == s.counter)
            && (a.OtherWake? || (a.LoopPushDone? && s.pc == RunBatch) ==>
                  d.counter == if s.counter < 0xffff_ffff_ffff_fffe then s.counter + 1 else s.counter)
  {}

  /** The eventfd counts: k wakeups and no read leave it k higher, or at its maximum. */
  lemma {:induction false} CounterCountsWakeups(s: State, acts: seq<Action>)
    requires Flags(s) && s.counter <= 0xffff_ffff_ffff_fffe && LegalRun(s, acts) && ReadWakeup !in acts
    ensures var k := s.counter + Wakeups(s, acts);
            Run(s, acts).counter == if k <= 0xffff_ffff_ffff_fffe then k else 0xffff_ffff_ffff_fffe
    decreases |acts|
  {
    hide Step, Flags;
    if acts != [] {
      WakeupAddsOne(s, acts[0]);
      StepKeepsFlags(s, acts[0]);
      CounterCountsWakeups(Step(s, acts[0]), acts[1..]);
    }
  }

  /** A wakeup that poll reports is read before the functors are taken. */
  lemma PolledWakeupIsRead(s: State, acts: seq<Action>)
    requires Flags(s) && Enabled(s, PollReturn(true)) && LegalRun(Step(s, PollReturn(true)), acts)
    requires TakeBatch in acts
    ensures ReadWakeup in acts
  {
    StepKeepsFlags(s, PollReturn(true));
    ReportedIsRead(Step(s, PollReturn(true)), acts);
  }

  lemma {:induction false} ReportedIsRead(s: State, acts: seq<Action>)
    requires Flags(s) && s.reported && LegalRun(s, acts) && TakeBatch in acts
    ensures ReadWakeup in acts
    decreases |acts|
  {
    if acts != [] {
      if acts[0] != ReadWakeup {
        StepKeepsReported(s, acts[0]);
        StepKeepsFlags(s, acts[0]);
        assert TakeBatch in acts[1..];
        ReportedIsRead(Step(s, acts[0]), acts[1..]);
      }
    }
  }

  lemma StepKeepsReported(s: State, a: Action)
    requires Flags(s) && s.reported && Enabled(s, a) && a != ReadWakeup
    ensures Step(s, a).reported && a != TakeBatch
  {}
}
