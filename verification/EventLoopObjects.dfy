/**
  The EventLoop class of src/EventLoop.cc. A method is one call run without interference; it is
  proved to be a run of the step system of module EventLoops, which adds the interference.
*/
module EventLoopObjects {
  import opened EventLoops

  function Tasks(items: seq<Item>): seq<int> {
    seq(|items|, i requires 0 <= i < |items| => items[i].task)
  }

  /** What user code on the loop thread, a handler or a functor, may ask of its own loop. */
  datatype Call = Queue(task: int) | Quit

  /** What a functor does when it is run. */
  type Work = int -> seq<Call>

  function QueuedBy(calls: seq<Call>): seq<int> {
    if calls == [] then []
    else
      var last := calls[|calls| - 1];
      QueuedBy(calls[..|calls| - 1]) + (if last.Queue? then [last.task] else [])
  }

  /** What a batch of functors queues while it runs. */
  function Requeued(tasks: seq<int>, work: Work): seq<int> {
    if tasks == [] then []
    else Requeued(tasks[..|tasks| - 1], work) + QueuedBy(work(tasks[|tasks| - 1]))
  }

  predicate AnyQuits(tasks: seq<int>, work: Work) {
    exists i | 0 <= i < |tasks| :: Quit in work(tasks[i])
  }

  /**
    What happens around one turn of loop(): other threads queue work and may call quit while the
    loop polls, then the handlers it dispatches make calls of their own.
  */
  datatype Turn = Turn(queued: seq<int>, quits: bool, handled: seq<Call>)

  /** The functors started in a turn that finds some pending. */
  function Started(pending: seq<int>, turn: Turn): seq<int> {
    pending + turn.queued + QueuedBy(turn.handled)
  }

  /** Another thread, a handler or a functor calls quit during the turn. */
  predicate QuitsIn(pending: seq<int>, turn: Turn, work: Work) {
    turn.quits || Quit in turn.handled || AnyQuits(Started(pending, turn), work)
  }

  datatype Outcome = Outcome(done: nat, left: bool, started: seq<int>)

  /** loop() as a function: turns made, whether quit ended it, and the functors started. */
  function LoopRun(pending: seq<int>, turns: seq<Turn>, work: Work): Outcome
    decreases |turns|
  {
    if turns == [] then Outcome(0, false, [])
    else
      var now := Started(pending, turns[0]);
      if QuitsIn(pending, turns[0], work) then Outcome(1, true, now)
      else
        var r := LoopRun(Requeued(now, work), turns[1..], work);
        Outcome(1 + r.done, r.left, now + r.started)
  }

  /** Another thread or a handler calls quit in the turn. */
  predicate Asks(turn: Turn) {
    turn.quits || Quit in turn.handled
  }

  lemma AnyQuitsOfBoth(first: seq<int>, second: seq<int>, work: Work)
    ensures AnyQuits(first + second, work) <==> AnyQuits(first, work) || AnyQuits(second, work)
  {
    var all := first + second;
    assert forall i | 0 <= i < |first| :: all[i] == first[i];
    assert forall i | 0 <= i < |second| :: all[|first| + i] == second[i];
  }

  /** What is pending after turns in which nobody quits. */
  function PendingAfter(pending: seq<int>, turns: seq<Turn>, work: Work): seq<int>
    decreases |turns|
  {
    if turns == [] then pending
    else PendingAfter(Requeued(Started(pending, turns[0]), work), turns[1..], work)
  }

  /** loop() is left exactly when quit was called, by another thread, a handler or a functor. */
  lemma {:induction false} LoopLeavesOnQuit(pending: seq<int>, turns: seq<Turn>, work: Work)
    ensures var r := LoopRun(pending, turns, work);
            && r.done <= |turns| && (!r.left ==> r.done == |turns|)
            && (forall i | 0 <= i < r.done - 1 :: !Asks(turns[i]))
            && (r.left <==> AnyQuits(r.started, work) || exists i | 0 <= i < r.done :: Asks(turns[i]))
    decreases |turns|
  {
    hide Started, Requeued, QueuedBy, AnyQuits;
    if turns == [] {
      assert !AnyQuits([], work) by {
        AnyQuitsOfNone(work);
      }
    } else if QuitsIn(pending, turns[0], work) {
      assert AnyQuits(Started(pending, turns[0]), work) || Asks(turns[0]);
    } else {
      var now := Started(pending, turns[0]);
      var r := LoopRun(Requeued(now, work), turns[1..], work);
      LoopLeavesOnQuit(Requeued(now, work), turns[1..], work);
      AnyQuitsOfBoth(now, r.started, work);
      assert !Asks(turns[0]);
      assert forall i | 0 < i < |turns| :: turns[i] == turns[1..][i - 1];
      assert forall i | 0 <= i < r.done :: turns[1..][i] == turns[i + 1];
    }
  }

  /**
    It is left in the turn of the first call and in no earlier one, and that turn is not cut short:
    before it nobody had called quit, in it somebody does, and all its functors are started.
  */
  lemma {:induction false} LoopLeavesInTurnOfQuit(pending: seq<int>, turns: seq<Turn>, work: Work)
    ensures var r := LoopRun(pending, turns, work);
            && r.done <= |turns| && (r.left ==> r.done > 0)
            && (forall k | 0 <= k < r.done :: !LoopRun(pending, turns[..k], work).left)
            && (r.left ==>
                  var before := turns[..r.done - 1];
                  var p := PendingAfter(pending, before, work);
                  && QuitsIn(p, turns[r.done - 1], work)
                  && r.started == LoopRun(pending, before, work).started + Started(p, turns[r.done - 1]))
    decreases |turns|
  {
    hide Started, Requeued, QuitsIn;
    if turns != [] {
      var now := Started(pending, turns[0]);
      if QuitsIn(pending, turns[0], work) {
        assert turns[..0] == [];
      } else {
        var next, later := Requeued(now, work), turns[1..];
        var q := LoopRun(next, later, work);
        LoopLeavesInTurnOfQuit(next, later, work);
        forall k | 0 < k < q.done + 1
          ensures !LoopRun(pending, turns[..k], work).left
        {
          PrefixTurn(pending, turns, work, k);
        }
        if q.left {
          PrefixTurn(pending, turns, work, q.done);
        }
      }
    }
  }

  lemma PrefixTurn(pending: seq<int>, turns: seq<Turn>, work: Work, k: nat)
    requires 0 < k <= |turns| && !QuitsIn(pending, turns[0], work)
    ensures var now := Started(pending, turns[0]);
            var q := LoopRun(Requeued(now, work), turns[1..][..k - 1], work);
            && LoopRun(pending, turns[..k], work) == Outcome(1 + q.done, q.left, now + q.started)
            && PendingAfter(pending, turns[..k], work) == PendingAfter(Requeued(now, work), turns[1..][..k - 1], work)
  {
    hide Started, Requeued, QuitsIn;
    assert turns[..k][0] == turns[0] && turns[..k][1..] == turns[1..][..k - 1];
  }

  lemma AnyQuitsOfNone(work: Work)
    ensures !AnyQuits([], work)
  {}

  lemma LoopRunTurn(pending: seq<int>, turns: seq<Turn>, work: Work, before: nat, started: seq<int>)
    requires turns != []
    ensures var now := Started(pending, turns[0]);
            var all := LoopRun(pending, turns, work);
            var r := LoopRun(Requeued(now, work), turns[1..], work);
            Outcome(before + all.done, all.left, started + all.started) ==
              if QuitsIn(pending, turns[0], work) then Outcome(before + 1, true, started + now)
              else Outcome(before + 1 + r.done, r.left, started + now + r.started)
  {
    hide Started, Requeued, QuitsIn;
  }

  class EventLoop {
    var quit: bool
    var callingPendingFunctors: bool
    var wakeups: nat
    var pendingFunctors: seq<int>
    ghost var rest: State

    ghost function View(): State
      reads this
    {
      rest.(quit := quit, calling := callingPendingFunctors, counter := wakeups)
    }

    ghost predicate Valid()
      reads this
    {
      pendingFunctors == Tasks(rest.pending)
    }

    /** The loop thread is where it was and has started nothing, and so are the other threads. */
    ghost predicate Undisturbed(was: State)
      reads this
    {
      && rest.pc == was.pc && rest.batch == was.batch && rest.executed == was.executed
      && rest.selfPushed == was.selfPushed && rest.reported == was.reported && OthersKept(was)
    }

    ghost predicate OthersKept(was: State)
      reads this
    {
      rest.pushing == was.pushing && rest.quitting == was.quitting
    }

    constructor ()
      ensures Valid() && View() == INIT
    {
      quit, callingPendingFunctors, wakeups, pendingFunctors, rest := false, false, 0, [], INIT;
    }

    method Wakeup()
      modifies this`wakeups
      ensures wakeups == if old(wakeups) < 0xffff_ffff_ffff_fffe then old(wakeups) + 1 else old(wakeups)
    {
      if wakeups < COUNTER_MAX {
        wakeups := wakeups + 1;
      }
    }

    /** queueInLoop by another thread: push, then always wakeup. */
    method QueueFromOther(t: nat, task: int)
      requires Valid() && Enabled(View(), OtherPush(t, task))
      modifies this
      ensures var acts := [OtherPush(t, task), OtherWake(t)];
              LegalRun(old(View()), acts) && View() == Run(old(View()), acts)
      ensures Valid() && pendingFunctors == old(pendingFunctors) + [task]
      ensures Undisturbed(old(rest)) && quit == old(quit)
    {
      ghost var s := View();
      ghost var acts := [OtherPush(t, task), OtherWake(t)];
      pendingFunctors := pendingFunctors + [task];
      rest := Push(rest, task, false);
      assert Step(s, acts[0]) == View().(pushing := s.pushing + {t});
      Wakeup();
      TwoSteps(s, acts[0], acts[1]);
      assert s.pushing + {t} - {t} == s.pushing && s.quitting - {t} == s.quitting;
    }

    /** queueInLoop by the loop thread: push, then wakeup only while functors are being called. */
    method QueueFromLoop(task: int)
      requires Valid() && Enabled(View(), LoopPush(task))
      modifies this
      ensures var acts := [LoopPush(task), LoopPushDone];
              LegalRun(old(View()), acts) && View() == Run(old(View()), acts)
      ensures Valid() && UserCode(View()) && pendingFunctors == old(pendingFunctors) + [task]
      ensures Undisturbed(old(rest)) && quit == old(quit)
    {
      ghost var s := View();
      pendingFunctors := pendingFunctors + [task];
      rest := Push(rest, task, rest.pc == Outside);
      if callingPendingFunctors {
        Wakeup();
      }
      TwoSteps(s, LoopPush(task), LoopPushDone);
    }

    method QuitFromOther(t: nat)
      requires Enabled(View(), OtherQuit(t))
      modifies this`quit, this`wakeups
      ensures var acts := [OtherQuit(t), OtherWake(t)];
              LegalRun(old(View()), acts) && View() == Run(old(View()), acts)
      ensures quit
    {
      ghost var s := View();
      quit := true;
      Wakeup();
      TwoSteps(s, OtherQuit(t), OtherWake(t));
      assert s.quitting + {t} - {t} == s.quitting && s.pushing - {t} == s.pushing;
    }

    /** quit by the loop thread itself: no wakeup. */
    method QuitFromLoop()
      requires Enabled(View(), LoopQuit)
      modifies this`quit
      ensures View() == Step(old(View()), LoopQuit) && quit
    {
      quit := true;
    }

    /** The read callback of the wakeup channel. */
    method HandleRead()
      requires Enabled(View(), ReadWakeup)
      modifies this`wakeups, this`rest
      ensures View() == Step(old(View()), ReadWakeup) && rest == old(rest).(reported := false) && wakeups == 0
    {
      wakeups := 0;
      rest := rest.(reported := false);
    }

    /** User code on the loop thread, a functor or a handler. */
    method RunUserCode(calls: seq<Call>) returns (ghost acts: seq<Action>)
      requires Valid() && UserCode(View())
      modifies this
      ensures LegalRun(old(View()), acts) && View() == Run(old(View()), acts) && EndPending !in acts
      ensures Starts(acts) == 0 && Valid() && UserCode(View()) && Undisturbed(old(rest))
      ensures pendingFunctors == old(pendingFunctors) + QueuedBy(calls)
      ensures quit == (old(quit) || Quit in calls)
    {
      hide Step, LegalRun, Run;
      NoSteps(View());
      acts := [];
      for i := 0 to |calls|
        invariant LegalRun(old(View()), acts) && View() == Run(old(View()), acts) && EndPending !in acts
        invariant Starts(acts) == 0 && Valid() && UserCode(View()) && Undisturbed(old(rest))
        invariant pendingFunctors == old(pendingFunctors) + QueuedBy(calls[..i])
        invariant quit == (old(quit) || Quit in calls[..i])
      {
        assert calls[..i + 1][..i] == calls[..i];
        ghost var more := MakeCall(calls[i]);
        RunCompose(old(View()), acts, more);
        StartsOfBoth(acts, more);
        acts := acts + more;
      }
      assert calls[..|calls|] == calls;
    }

    /** queueInLoop or quit on the loop thread. */
    method MakeCall(call: Call) returns (ghost acts: seq<Action>)
      requires Valid() && UserCode(View())
      modifies this
      ensures LegalRun(old(View()), acts) && View() == Run(old(View()), acts) && EndPending !in acts
      ensures Starts(acts) == 0 && Valid() && UserCode(View()) && Undisturbed(old(rest))
      ensures pendingFunctors == old(pendingFunctors) + (if call.Queue? then [call.task] else [])
      ensures quit == (old(quit) || call.Quit?)
    {
      match call
      case Queue(task) =>
        QueueFromLoop(task);
        acts := [LoopPush(task), LoopPushDone];
        assert acts[1..] == [LoopPushDone] && [LoopPushDone][1..] == [];
        assert Starts(acts) == Starts([LoopPushDone]) == Starts([]);
      case Quit =>
        OneStep(View(), LoopQuit);
        QuitFromLoop();
        acts := [LoopQuit];
        assert acts[1..] == [];
        assert Starts(acts) == Starts([]);
    }

    /** One turn of the functor loop of doPendingFunctors. */
    method RunNextFunctor(calls: seq<Call>) returns (ghost acts: seq<Action>)
      requires Valid() && UserCode(View()) && rest.pc == RunBatch && rest.batch != []
      modifies this
      ensures LegalRun(old(View()), acts) && View() == Run(old(View()), acts)
      ensures Valid() && UserCode(View()) && rest.pc == RunBatch && OthersKept(old(rest))
      ensures rest.batch == old(rest.batch)[1..] && rest.executed == old(rest.executed) + [old(rest.batch)[0]]
      ensures pendingFunctors == old(pendingFunctors) + QueuedBy(calls)
      ensures quit == (old(quit) || Quit in calls)
    {
      ghost var s := View();
      rest := rest.(batch := rest.batch[1..], executed := rest.executed + [rest.batch[0]]);
      OneStep(s, RunNext);
      ghost var more := RunUserCode(calls);
      RunCompose(s, [RunNext], more);
      acts := [RunNext] + more;
    }

    /** The first half of doPendingFunctors: set the flag, swap out the pending functors. */
    method TakeFunctors() returns (functors: seq<int>)
      requires Valid() && Enabled(View(), BeginPending)
      modifies this
      ensures var acts := [BeginPending, TakeBatch];
              LegalRun(old(View()), acts) && View() == Run(old(View()), acts)
      ensures Valid() && UserCode(View()) && rest.pc == RunBatch
      ensures rest.batch == old(rest.pending) && rest.executed == old(rest.executed)
      ensures OthersKept(old(rest)) && quit == old(quit)
      ensures functors == Tasks(rest.batch) == old(pendingFunctors) && pendingFunctors == []
    {
      ghost var s := View();
      callingPendingFunctors := true;
      functors := pendingFunctors;
      pendingFunctors := [];
      rest := rest.(pc := RunBatch, batch := rest.pending, pending := [], batches := rest.batches + 1);
      TwoSteps(s, BeginPending, TakeBatch);
    }

    /** The end of doPendingFunctors. */
    method EndFunctors()
      requires Valid() && Enabled(View(), EndPending)
      modifies this
      ensures LegalRun(old(View()), [EndPending]) && View() == Run(old(View()), [EndPending])
      ensures Valid() && rest.pc == Test && !callingPendingFunctors && rest.executed == old(rest.executed)
      ensures OthersKept(old(rest)) && quit == old(quit) && !rest.selfPushed
      ensures pendingFunctors == old(pendingFunctors)
    {
      OneStep(View(), EndPending);
      callingPendingFunctors := false;
      rest := rest.(pc := Test);
    }

    /**
      doPendingFunctors: it starts exactly the functors that were pending, in order, and leaves
      pending exactly what they queued; a functor that calls quit does not cut the batch short.
    */
    method DoPendingFunctors(work: Work) returns (ghost acts: seq<Action>)
      requires Valid() && Enabled(View(), BeginPending)
      modifies this
      ensures LegalRun(old(View()), acts) && View() == Run(old(View()), acts)
      ensures rest.pc == Test && !callingPendingFunctors && !rest.selfPushed
      ensures rest.executed == old(rest.executed) + old(rest.pending) && OthersKept(old(rest))
      ensures pendingFunctors == Requeued(old(pendingFunctors), work)
      ensures quit == (old(quit) || AnyQuits(old(pendingFunctors), work))
      ensures Valid()
    {
      hide Step, LegalRun, Run;
      ghost var s := View();
      var functors := TakeFunctors();
      acts := [BeginPending, TakeBatch];
      for i := 0 to |functors|
        invariant LegalRun(s, acts) && View() == Run(s, acts)
        invariant Valid() && UserCode(View()) && rest.pc == RunBatch && rest.batch == s.pending[i..]
        invariant rest.executed == s.executed + s.pending[..i]
        invariant OthersKept(s) && quit == (s.quit || AnyQuits(functors[..i], work))
        invariant pendingFunctors == Requeued(functors[..i], work)
      {
        assert functors[..i + 1][..i] == functors[..i];
        AnyQuitsExtends(functors, i, work);
        ghost var more := RunNextFunctor(work(functors[i]));
        RunCompose(s, acts, more);
        acts := acts + more;
      }
      assert functors[..|functors|] == functors;
      EndFunctors();
      RunCompose(s, acts, [EndPending]);
      acts := acts + [EndPending];
    }

    /** The calls that other threads make while the loop polls. */
    method CallsOfOthers(t: nat, turn: Turn) returns (ghost acts: seq<Action>)
      requires Valid() && t !in rest.pushing + rest.quitting
      modifies this
      ensures LegalRun(old(View()), acts) && View() == Run(old(View()), acts)
      ensures Valid() && Undisturbed(old(rest))
      ensures pendingFunctors == old(pendingFunctors) + turn.queued && quit == (old(quit) || turn.quits)
    {
      hide Step, LegalRun, Run;
      ghost var s := View();
      NoSteps(s);
      acts := [];
      for i := 0 to |turn.queued|
        invariant LegalRun(s, acts) && View() == Run(s, acts)
        invariant Valid() && Undisturbed(s) && quit == s.quit
        invariant pendingFunctors == old(pendingFunctors) + turn.queued[..i]
      {
        QueueFromOther(t, turn.queued[i]);
        ghost var two := [OtherPush(t, turn.queued[i]), OtherWake(t)];
        RunCompose(s, acts, two);
        acts := acts + two;
      }
      if turn.quits {
        QuitFromOther(t);
        RunCompose(s, acts, [OtherQuit(t), OtherWake(t)]);
        acts := acts + [OtherQuit(t), OtherWake(t)];
      }
    }

    /** poll and the wakeup channel: a readable eventfd is reported and read down to zero. */
    method PollAndRead() returns (ghost acts: seq<Action>)
      requires Valid() && rest.pc == Poll && !rest.selfPushed
      modifies this`wakeups, this`rest
      ensures LegalRun(old(View()), acts) && View() == Run(old(View()), acts)
      ensures wakeups == 0 && rest == old(rest).(pc := Handle, reported := false)
    {
      ghost var s := View();
      var saw := wakeups > 0;
      rest := rest.(pc := Handle, reported := saw);
      OneStep(s, PollReturn(saw));
      acts := [PollReturn(saw)];
      if saw {
        HandleRead();
        TwoSteps(s, PollReturn(saw), ReadWakeup);
        acts := [PollReturn(saw), ReadWakeup];
      }
    }

    /**
      The body of loop()'s while loop: it starts what was pending, what other threads queued
      while it polled and what its handlers queued, in this order.
    */
    method Iterate(t: nat, turn: Turn, work: Work) returns (ghost acts: seq<Action>)
      requires Valid() && rest.pc == Poll && !rest.selfPushed && t !in rest.pushing + rest.quitting
      modifies this
      ensures LegalRun(old(View()), acts) && View() == Run(old(View()), acts)
      ensures Valid() && rest.pc == Test && !rest.selfPushed && OthersKept(old(rest))
      ensures quit == (old(quit) || QuitsIn(old(pendingFunctors), turn, work))
      ensures Tasks(rest.executed) == old(Tasks(rest.executed)) + Started(old(pendingFunctors), turn)
      ensures pendingFunctors == Requeued(Started(old(pendingFunctors), turn), work)
    {
      hide Step, LegalRun, Run, Tasks, AnyQuits, Requeued, QueuedBy;
      ghost var s := View();
      acts := CallsOfOthers(t, turn);
      ghost var more := PollAndRead();
      RunCompose(s, acts, more);
      acts := acts + more;
      more := RunUserCode(turn.handled);
      RunCompose(s, acts, more);
      acts := acts + more;
      ghost var due := rest.pending;
      more := DoPendingFunctors(work);
      RunCompose(s, acts, more);
      acts := acts + more;
      TasksOfBoth(s.executed, due);
    }

    /** The test of quit_. */
    method TestQuit() returns (leave: bool)
      requires Valid() && rest.pc == Test
      modifies this`rest
      ensures LegalRun(old(View()), [LoopTest]) && View() == Run(old(View()), [LoopTest])
      ensures leave == quit && rest == old(rest).(pc := if leave then Outside else Poll)
    {
      OneStep(View(), LoopTest);
      leave := quit;
      rest := rest.(pc := if leave then Outside else Poll);
    }

    method Start()
      requires Valid() && Enabled(View(), LoopStart)
      modifies this`quit, this`rest
      ensures LegalRun(old(View()), [LoopStart]) && View() == Run(old(View()), [LoopStart])
      ensures !quit && rest == old(rest).(pc := Test)
    {
      OneStep(View(), LoopStart);
      quit := false;
      rest := rest.(pc := Test);
    }

    /**
      loop(), for as long as the given turns last: it leaves after the first turn in which another
      thread, a handler or a functor calls quit, and not before, having run all functors of that
      turn; a quit called before it started is forgotten.
    */
    method Loop(t: nat, turns: seq<Turn>, work: Work)
      returns (done: nat, left: bool, ghost acts: seq<Action>)
      requires Valid() && Enabled(View(), LoopStart) && t !in rest.pushing + rest.quitting
      modifies this
      ensures LegalRun(old(View()), acts) && View() == Run(old(View()), acts)
      ensures Valid() && (rest.pc == Outside <==> left)
      ensures var r := LoopRun(old(pendingFunctors), turns, work);
              done == r.done && left == r.left && Tasks(rest.executed) == old(Tasks(rest.executed)) + r.started
    {
      hide Step, LegalRun, Run, Tasks, QuitsIn, Started, Requeued, LoopRun;
      ghost var s, was := View(), pendingFunctors;
      Start();
      acts := [LoopStart];
      done := 0;
      left := TestQuit();
      RunCompose(s, acts, [LoopTest]);
      acts := acts + [LoopTest];
      ghost var started: seq<int> := [];
      ghost var all := LoopRun(was, turns, work);
      assert turns[0..] == turns;
      assert started + all.started == all.started;
      while !left && done < |turns|
        invariant LegalRun(s, acts) && View() == Run(s, acts)
        invariant Valid() && done <= |turns| && rest.pc == (if left then Outside else Poll)
        invariant !rest.selfPushed && OthersKept(s) && quit == left
        invariant Tasks(rest.executed) == Tasks(s.executed) + started
        invariant var r := LoopRun(pendingFunctors, turns[done..], work);
                  all == if left then Outcome(done, true, started)
                         else Outcome(done + r.done, r.left, started + r.started)
        decreases |turns| - done
      {
        assert turns[done..][1..] == turns[done + 1..] && turns[done..][0] == turns[done];
        LoopRunTurn(pendingFunctors, turns[done..], work, done, started);
        started := started + Started(pendingFunctors, turns[done]);
        ghost var more := Iterate(t, turns[done], work);
        RunCompose(s, acts, more);
        acts := acts + more;
        done := done + 1;
        left := TestQuit();
        RunCompose(s, acts, [LoopTest]);
        acts := acts + [LoopTest];
      }
      if !left {
        assert turns[done..] == [];
        EmptyLoopRun(pendingFunctors, work);
        assert started + [] == started;
      }
    }
  }

  lemma EmptyLoopRun(pending: seq<int>, work: Work)
    ensures LoopRun(pending, [], work) == Outcome(0, false, [])
  {}

  lemma AnyQuitsExtends(tasks: seq<int>, i: nat, work: Work)
    requires i < |tasks|
    ensures AnyQuits(tasks[..i + 1], work) <==> AnyQuits(tasks[..i], work) || Quit in work(tasks[i])
  {
    var more := tasks[..i + 1];
    assert more[i] == tasks[i] && forall k | 0 <= k < i :: more[k] == tasks[..i][k];
  }

  lemma TasksOfBoth(first: seq<Item>, second: seq<Item>)
    ensures Tasks(first + second) == Tasks(first) + Tasks(second)
  {}

  lemma NoSteps(s: State)
    ensures LegalRun(s, []) && Run(s, []) == s
  {}

  lemma OneStep(s: State, a: Action)
    requires Enabled(s, a)
    ensures LegalRun(s, [a]) && Run(s, [a]) == Step(s, a)
  {}

  lemma TwoSteps(s: State, a: Action, b: Action)
    requires Enabled(s, a) && Enabled(Step(s, a), b)
    ensures LegalRun(s, [a, b]) && Run(s, [a, b]) == Step(Step(s, a), b)
  {
    OneStep(Step(s, a), b);
    assert [a, b][1..] == [b];
  }

  lemma {:induction false} StartsOfBoth(first: seq<Action>, second: seq<Action>)
    ensures Starts(first + second) == Starts(first) + Starts(second)
    decreases |first|
  {
    if first == [] {
      assert first + second == second;
    } else {
      assert (first + second)[1..] == first[1..] + second;
      StartsOfBoth(first[1..], second);
    }
  }
}
