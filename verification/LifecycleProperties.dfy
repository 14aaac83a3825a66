/** What every interleaving of the connection life cycle keeps. */
module LifecycleProperties {
  import opened Options
  import opened Names
  import opened Epoll
  import Connections
  import opened Lifecycle

  // ---------------------------------------------------------------- the invariant

  predicate InTable(cfg: Config, w: World, c: nat) {
    Name(cfg, c) in w.table && w.table[Name(cfg, c)] == c
  }

  predicate Queued(ls: Loops, l: nat, f: Functor) {
    l in ls && f in ls[l].Items()
  }

  predicate Owes(ls: Loops, l: nat, cont: Cont) {
    l in ls && ls[l].cont == cont
  }

  predicate IsActive(ls: Loops, l: nat, c: nat) {
    l in ls && ls[l].phase.Handling? && c in ls[l].phase.active
  }

  /** state_, channel and map entry are those of the connection's stage. */
  predicate Matches(k: Conn, inTable: bool) {
    match k.stage
    case Fresh => k.state == Connections.Connecting && k.index == New && !k.registered && inTable
    case Live =>
      && (k.state == Connections.Connected || k.state == Connections.Disconnecting)
      && k.index == Added && k.registered && inTable
    case Closing => k.state == Connections.Disconnected && k.index == Added && !k.registered && inTable
    case Gone => k.state == Connections.Disconnected && k.index == Added && !k.registered && !inTable
    case Dead => k.state == Connections.Disconnected && k.index == New && !k.registered && !inTable
  }

  /** The next thing due to an unfinished connection is queued, or in the hands of a running thread. */
  predicate Due(cfg: Config, ls: Loops, c: nat, io: nat, s: Stage) {
    match s
    case Fresh => Queued(ls, io, Establish(c)) || Owes(ls, cfg.base, PushEstablish(c))
    case Closing => Queued(ls, cfg.base, RemoveConn(c)) || Owes(ls, io, PushRemove(c))
    case Gone => Queued(ls, io, DestroyConn(c)) || Owes(ls, cfg.base, PushDestroy(c))
    case _ => true
  }

  /** Functors and hand-offs of a connection: only at its stage, only on the right loop, never twice. */
  ghost predicate Placed(cfg: Config, ls: Loops, c: nat, io: nat, s: Stage) {
    && (forall l :: Queued(ls, l, Establish(c)) ==> l == io && s == Fresh)
    && (forall l :: Queued(ls, l, RemoveConn(c)) ==> l == cfg.base && s == Closing)
    && (forall l :: Queued(ls, l, DestroyConn(c)) ==> l == io && s == Gone)
    && (forall l :: Owes(ls, l, PushEstablish(c)) ==>
          l == cfg.base && s == Fresh && !Queued(ls, io, Establish(c)))
    && (forall l :: Owes(ls, l, PushRemove(c)) ==>
          l == io && s == Closing && !Queued(ls, cfg.base, RemoveConn(c)))
    && (forall l :: Owes(ls, l, PushDestroy(c)) ==>
          l == cfg.base && s == Gone && !Queued(ls, io, DestroyConn(c)))
  }

  /** A connection waiting in a loop's activeChannels_ is registered there. */
  ghost predicate ActiveOk(ls: Loops, c: nat, io: nat, s: Stage) {
    forall l :: IsActive(ls, l, c) ==> l == io && s == Live
  }

  ghost predicate TokensOk(cfg: Config, ls: Loops, c: nat, io: nat, s: Stage) {
    Due(cfg, ls, c, io, s) && Placed(cfg, ls, c, io, s) && ActiveOk(ls, c, io, s)
  }

  predicate StageOk(cfg: Config, w: World, c: nat)
    requires c in w.conns
  {
    && w.conns[c].loop in w.loops && c < w.nextId
    && StageAfter(w.conns[c].hist) == Some(w.conns[c].stage)
    && Matches(w.conns[c], InTable(cfg, w, c))
  }

  ghost predicate ConnsOk(cfg: Config, w: World) {
    forall c | c in w.conns :: StageOk(cfg, w, c) && TokensOk(cfg, w.loops, c, w.conns[c].loop, w.conns[c].stage)
  }

  predicate NoDuplicates(items: seq<Functor>) {
    forall i, j | 0 <= i < j < |items| && items[i] == items[j] :: items[i].Task?
  }

  predicate Distinct(active: seq<nat>) {
    forall i, j | 0 <= i < j < |active| :: active[i] != active[j]
  }

  /** No functor is queued twice, and what a loop refers to exists. */
  predicate LoopOk(loop: Loop, ids: set<nat>) {
    && NoDuplicates(loop.Items())
    && (forall i | 0 <= i < |loop.Items()| && !loop.Items()[i].Task? :: loop.Items()[i].c in ids)
    && (!loop.cont.Idle? ==> loop.cont.c in ids)
    && (loop.phase.Handling? ==> Distinct(loop.phase.active) && forall c | c in loop.phase.active :: c in ids)
  }

  predicate LoopsOk(ls: Loops, ids: set<nat>) {
    forall l | l in ls :: LoopOk(ls[l], ids)
  }

  /** connections_ holds accepted connections only, under their own names. */
  predicate TableOk(cfg: Config, w: World) {
    && w.nextId <= INT_MAX + 1
    && forall name | name in w.table :: w.table[name] in w.conns && name == Name(cfg, w.table[name])
  }

  /** Connections that are not finished hold distinct fds. */
  predicate FdsOk(w: World) {
    forall c, d | c in w.conns && d in w.conns && c != d && w.conns[c].stage != Dead && w.conns[d].stage != Dead ::
      w.conns[c].fd != w.conns[d].fd
  }

  ghost predicate Inv(cfg: Config, w: World) {
    && cfg.base in w.loops && cfg.listen.Valid()
    && ConnsOk(cfg, w) && LoopsOk(w.loops, w.conns.Keys) && TableOk(cfg, w) && FdsOk(w)
  }

  // ---------------------------------------------------------------- frame

  predicate About(f: Functor, d: nat) {
    !f.Task? && f.c == d
  }

  /** The functors, hand-offs and active entries of connection d are where they were. */
  ghost predicate Untouched(ls: Loops, ms: Loops, d: nat) {
    && (forall l, f | About(f, d) :: Queued(ms, l, f) <==> Queued(ls, l, f))
    && (forall l, k: Cont | !k.Idle? && k.c == d :: Owes(ms, l, k) <==> Owes(ls, l, k))
    && (forall l :: IsActive(ms, l, d) ==> IsActive(ls, l, d))
  }

  lemma UntouchedTokens(cfg: Config, ls: Loops, ms: Loops, d: nat, io: nat, s: Stage)
    requires Untouched(ls, ms, d) && TokensOk(cfg, ls, d, io, s)
    ensures TokensOk(cfg, ms, d, io, s)
  {}

  /** A step that touches the tokens of connection c only, and its entry, keeps all others well. */
  lemma ConnsStayOk(cfg: Config, w: World, v: World, c: nat)
    requires ConnsOk(cfg, w) && w.loops.Keys == v.loops.Keys && w.nextId <= v.nextId
    requires forall d | d in v.conns && d != c :: d in w.conns && v.conns[d] == w.conns[d]
    requires forall d | d in v.conns && d != c :: InTable(cfg, v, d) == InTable(cfg, w, d)
    requires forall d | d in v.conns && d != c :: Untouched(w.loops, v.loops, d)
    requires c in v.conns ==> StageOk(cfg, v, c) && TokensOk(cfg, v.loops, c, v.conns[c].loop, v.conns[c].stage)
    ensures ConnsOk(cfg, v)
  {
    hide TokensOk, Name, StageAfter, Matches, Untouched;
    forall d | d in v.conns && d != c
      ensures StageOk(cfg, v, d) && TokensOk(cfg, v.loops, d, v.conns[d].loop, v.conns[d].stage)
    {
      assert StageOk(cfg, w, d);
      UntouchedTokens(cfg, w.loops, v.loops, d, v.conns[d].loop, v.conns[d].stage);
    }
  }

  lemma StageExtends(hist: seq<Ev>, e: Ev)
    requires StageAfter(hist).Some?
    ensures StageAfter(hist + [e]) == NextStage(StageAfter(hist).value, e)
  {}

  // ---------------------------------------------------------------- elementary moves of loops

  /** Everything a change of one hand-off does. */
  lemma ContMove(ls: Loops, ids: set<nat>, l: nat, cont: Cont)
    requires LoopsOk(ls, ids) && l in ls && (!cont.Idle? ==> cont.c in ids)
    ensures var ms := SetCont(ls, l, cont);
            && LoopsOk(ms, ids) && ms.Keys == ls.Keys
            && (forall m, f :: Queued(ms, m, f) <==> Queued(ls, m, f))
            && (forall m, k :: Owes(ms, m, k) <==> if m == l then k == cont else Owes(ls, m, k))
            && (forall m, c :: IsActive(ms, m, c) <==> IsActive(ls, m, c))
  {}

  /** Everything a push does. */
  lemma PushMove(ls: Loops, ids: set<nat>, l: nat, f: Functor)
    requires LoopsOk(ls, ids) && l in ls && (f.Task? || (f.c in ids && !Queued(ls, l, f)))
    ensures var ms := Enqueue(ls, l, f);
            && LoopsOk(ms, ids) && ms.Keys == ls.Keys
            && (forall m, g :: Queued(ms, m, g) <==> Queued(ls, m, g) || (m == l && g == f))
            && (forall m, k :: Owes(ms, m, k) <==> Owes(ls, m, k))
            && (forall m, c :: IsActive(ms, m, c) <==> IsActive(ls, m, c))
  {
    assert LoopOk(ls[l], ids);
    assert Enqueue(ls, l, f)[l].Items() == ls[l].Items() + [f];
  }

  /** Everything it does to start the first functor of a batch. */
  lemma PopMove(ls: Loops, ids: set<nat>, l: nat)
    requires LoopsOk(ls, ids) && l in ls && ls[l].phase.Running? && ls[l].phase.batch != []
    ensures var f := ls[l].phase.batch[0];
            var ms := SetPhase(ls, l, Running(ls[l].phase.batch[1..]));
            && LoopsOk(ms, ids) && ms.Keys == ls.Keys && (f.Task? || f.c in ids) && Queued(ls, l, f)
            && (forall m, g: Functor | !g.Task? :: Queued(ms, m, g) <==> Queued(ls, m, g) && !(m == l && g == f))
            && (forall m, k :: Owes(ms, m, k) <==> Owes(ls, m, k))
            && (forall m, c :: IsActive(ms, m, c) <==> IsActive(ls, m, c))
  {
    var items := ls[l].Items();
    var ms := SetPhase(ls, l, Running(ls[l].phase.batch[1..]));
    assert LoopOk(ls[l], ids) && items[0] == ls[l].phase.batch[0];
    assert ms[l].Items() == items[1..];
    forall g | g in items && g != items[0]
      ensures g in items[1..]
    {
      var i :| 0 <= i < |items| && items[i] == g;
      assert items[1..][i - 1] == g;
    }
  }

  /** Everything it does to dispatch the first active channel. */
  lemma DispatchMove(ls: Loops, ids: set<nat>, l: nat)
    requires LoopsOk(ls, ids) && l in ls && ls[l].phase.Handling? && ls[l].phase.active != []
    ensures var c := ls[l].phase.active[0];
            var ms := SetPhase(ls, l, Handling(ls[l].phase.active[1..]));
            && LoopsOk(ms, ids) && ms.Keys == ls.Keys && IsActive(ls, l, c)
            && (forall m, g :: Queued(ms, m, g) <==> Queued(ls, m, g))
            && (forall m, k :: Owes(ms, m, k) <==> Owes(ls, m, k))
            && (forall m, d :: IsActive(ms, m, d) ==> IsActive(ls, m, d) && !(m == l && d == c))
  {}

  // ---------------------------------------------------------------- steps that keep every stage

  /** Every lifecycle functor and every hand-off is where it was. */
  ghost predicate SameTokens(ls: Loops, ms: Loops) {
    && (forall m, f: Functor | !f.Task? :: Queued(ms, m, f) <==> Queued(ls, m, f))
    && (forall m, k :: Owes(ms, m, k) <==> Owes(ls, m, k))
  }

  lemma SameTokensStayOk(cfg: Config, ls: Loops, ms: Loops, c: nat, io: nat, s: Stage)
    requires SameTokens(ls, ms) && TokensOk(cfg, ls, c, io, s) && ActiveOk(ms, c, io, s)
    ensures TokensOk(cfg, ms, c, io, s)
  {}

  /** Loops changed only in phases, active lists and user tasks. */
  lemma LoopsOnlyStep(cfg: Config, w: World, ms: Loops)
    requires Inv(cfg, w) && LoopsOk(ms, w.conns.Keys) && ms.Keys == w.loops.Keys
    requires SameTokens(w.loops, ms)
    requires forall c | c in w.conns :: ActiveOk(ms, c, w.conns[c].loop, w.conns[c].stage)
    ensures Inv(cfg, w.(loops := ms))
  {
    hide Name, StageAfter, Matches, TokensOk, SameTokens, ActiveOk;
    var v := w.(loops := ms);
    forall c | c in v.conns
      ensures StageOk(cfg, v, c) && TokensOk(cfg, ms, c, v.conns[c].loop, v.conns[c].stage)
    {
      assert StageOk(cfg, w, c);
      SameTokensStayOk(cfg, w.loops, ms, c, w.conns[c].loop, w.conns[c].stage);
    }
  }

  lemma PollKeepsInv(cfg: Config, w: World, l: nat, active: seq<nat>)
    requires Inv(cfg, w) && Enabled(cfg, w, PollReturn(l, active))
    ensures Inv(cfg, Step(cfg, w, PollReturn(l, active)))
  {
    hide Name, StageAfter, Due, Placed;
    var ms := SetPhase(w.loops, l, Handling(active));
    assert LoopOk(w.loops[l], w.conns.Keys) && ms[l].Items() == w.loops[l].Items();
    assert forall m, f :: Queued(ms, m, f) <==> Queued(w.loops, m, f);
    forall c | c in w.conns
      ensures ActiveOk(ms, c, w.conns[c].loop, w.conns[c].stage)
    {
      assert StageOk(cfg, w, c) && ActiveOk(w.loops, c, w.conns[c].loop, w.conns[c].stage);
      assert forall m :: IsActive(ms, m, c) ==> m == l || IsActive(w.loops, m, c);
    }
    LoopsOnlyStep(cfg, w, ms);
  }

  /** The batch is taken, or the end of a batch reached: the same functors in the same order. */
  lemma BatchKeepsInv(cfg: Config, w: World, l: nat, phase: Phase, queue: seq<Functor>)
    requires Inv(cfg, w) && l in w.loops && !phase.Handling?
    requires var loop := w.loops[l].(phase := phase, queue := queue); loop.Items() == w.loops[l].Items()
    ensures Inv(cfg, w.(loops := w.loops[l := w.loops[l].(phase := phase, queue := queue)]))
  {
    hide Name, StageAfter, Due, Placed, StageOk;
    var ms := w.loops[l := w.loops[l].(phase := phase, queue := queue)];
    assert LoopOk(w.loops[l], w.conns.Keys);
    assert forall m, f :: Queued(ms, m, f) <==> Queued(w.loops, m, f);
    forall c | c in w.conns
      ensures ActiveOk(ms, c, w.conns[c].loop, w.conns[c].stage)
    {
      assert ActiveOk(w.loops, c, w.conns[c].loop, w.conns[c].stage);
      assert forall m :: IsActive(ms, m, c) ==> IsActive(w.loops, m, c);
    }
    LoopsOnlyStep(cfg, w, ms);
  }

  lemma TaskKeepsInv(cfg: Config, w: World, ms: Loops)
    requires Inv(cfg, w) && LoopsOk(ms, w.conns.Keys) && ms.Keys == w.loops.Keys
    requires SameTokens(w.loops, ms)
    requires forall m, c :: IsActive(ms, m, c) <==> IsActive(w.loops, m, c)
    ensures Inv(cfg, w.(loops := ms))
  {
    hide Name, StageAfter, Due, Placed, StageOk, SameTokens;
    forall c | c in w.conns
      ensures ActiveOk(ms, c, w.conns[c].loop, w.conns[c].stage)
    {
      assert ActiveOk(w.loops, c, w.conns[c].loop, w.conns[c].stage);
    }
    LoopsOnlyStep(cfg, w, ms);
  }

  // ---------------------------------------------------------------- steps of one connection

  lemma NamesDiffer(cfg: Config, c: nat, d: nat)
    requires cfg.listen.Valid() && c <= INT_MAX && d <= INT_MAX && c != d
    ensures Name(cfg, c) != Name(cfg, d)
  {
    NamesAreUnique(cfg.server, cfg.listen, c, d);
  }

  /** Connection c moved on, and nothing of any other connection changed. */
  ghost predicate Moved(w: World, v: World, c: nat) {
    && v.loops.Keys == w.loops.Keys && v.nextId == w.nextId && v.conns.Keys == w.conns.Keys && c in w.conns
    && v.conns[c].fd == w.conns[c].fd && v.conns[c].loop == w.conns[c].loop
    && (w.conns[c].stage == Dead ==> v.conns[c].stage == Dead)
    && (forall d | d in w.conns && d != c :: v.conns[d] == w.conns[d])
    && (forall d | d != c :: Untouched(w.loops, v.loops, d))
  }

  lemma OtherNamesStay(cfg: Config, w: World, v: World, c: nat, d: nat)
    requires cfg.listen.Valid() && c <= INT_MAX && d <= INT_MAX && c != d
    requires v.table == w.table || v.table == w.table - {Name(cfg, c)}
    ensures InTable(cfg, v, d) == InTable(cfg, w, d)
  {
    hide Name;
    NamesDiffer(cfg, c, d);
  }

  lemma MovedKeepsInv(cfg: Config, w: World, v: World, c: nat)
    requires Inv(cfg, w) && Moved(w, v, c) && LoopsOk(v.loops, v.conns.Keys)
    requires v.table == w.table || v.table == w.table - {Name(cfg, c)}
    requires StageAfter(v.conns[c].hist) == Some(v.conns[c].stage)
    requires Matches(v.conns[c], InTable(cfg, v, c))
    requires TokensOk(cfg, v.loops, c, v.conns[c].loop, v.conns[c].stage)
    ensures Inv(cfg, v)
  {
    hide Name, StageAfter, TokensOk, Matches, Untouched, InTable, LoopsOk;
    assert StageOk(cfg, w, c);
    forall d | d in v.conns && d != c
      ensures InTable(cfg, v, d) == InTable(cfg, w, d)
    {
      assert StageOk(cfg, w, d);
      OtherNamesStay(cfg, w, v, c, d);
    }
    ConnsStayOk(cfg, w, v, c);
  }

  /** Loops after a step: well formed, c's tokens right for its stage, everybody else's where they were. */
  ghost predicate TokensMoved(cfg: Config, ls: Loops, ms: Loops, ids: set<nat>, c: nat, io: nat, s: Stage) {
    && LoopsOk(ms, ids) && ms.Keys == ls.Keys
    && TokensOk(cfg, ms, c, io, s)
    && (forall d | d != c :: Untouched(ls, ms, d))
  }

  lemma DispatchTokens(cfg: Config, ls: Loops, ids: set<nat>, l: nat, io: nat, s: Stage)
    requires LoopsOk(ls, ids) && l in ls && ls[l].phase.Handling? && ls[l].phase.active != []
    requires TokensOk(cfg, ls, ls[l].phase.active[0], io, s)
    ensures s == Live && io == l
    ensures var ms := SetPhase(ls, l, Handling(ls[l].phase.active[1..]));
            TokensMoved(cfg, ls, ms, ids, ls[l].phase.active[0], io, Live)
  {
    hide LoopsOk;
    DispatchMove(ls, ids, l);
  }

  lemma CloseTokens(cfg: Config, ls: Loops, ids: set<nat>, l: nat, io: nat, s: Stage)
    requires LoopsOk(ls, ids) && l in ls && ls[l].phase.Handling? && ls[l].phase.active != [] && ls[l].cont.Idle?
    requires TokensOk(cfg, ls, ls[l].phase.active[0], io, s) && ls[l].phase.active[0] in ids
    ensures s == Live && io == l
    ensures var c := ls[l].phase.active[0];
            var ms := SetCont(SetPhase(ls, l, Handling(ls[l].phase.active[1..])), l, PushRemove(c));
            TokensMoved(cfg, ls, ms, ids, c, io, Closing)
  {
    hide LoopsOk, SetCont;
    DispatchMove(ls, ids, l);
    ContMove(SetPhase(ls, l, Handling(ls[l].phase.active[1..])), ids, l, PushRemove(ls[l].phase.active[0]));
    assert Owes(ls, l, Idle);
  }

  lemma EventKeepsInv(cfg: Config, w: World, l: nat, closes: bool)
    requires Inv(cfg, w) && Enabled(cfg, w, HandleEvent(l, closes))
    ensures Inv(cfg, Step(cfg, w, HandleEvent(l, closes)))
  {
    hide Name, StageAfter, TokensOk, Untouched, LoopsOk, SetCont, SetPhase;
    var ids := w.conns.Keys;
    var c := w.loops[l].phase.active[0];
    var k := w.conns[c];
    var v := DoEvent(w, l, closes);
    assert StageOk(cfg, w, c);
    StageExtends(k.hist, Handled);
    if closes {
      CloseTokens(cfg, w.loops, ids, l, k.loop, k.stage);
      StageExtends(k.hist + [Handled], Closed);
      assert k.hist + [Handled, Closed] == k.hist + [Handled] + [Closed];
    } else {
      DispatchTokens(cfg, w.loops, ids, l, k.loop, k.stage);
    }
    assert v.conns.Keys == ids;
    MovedKeepsInv(cfg, w, v, c);
  }

  lemma ShutdownKeepsInv(cfg: Config, w: World, l: nat, c: nat)
    requires Inv(cfg, w) && Enabled(cfg, w, CallShutdown(l, c))
    ensures Inv(cfg, Step(cfg, w, CallShutdown(l, c)))
  {
    hide Name, StageAfter, TokensOk, LoopsOk;
    var v := Step(cfg, w, CallShutdown(l, c));
    assert StageOk(cfg, w, c);
    assert v.conns.Keys == w.conns.Keys;
    MovedKeepsInv(cfg, w, v, c);
  }

  // ---------------------------------------------------------------- hand-offs

  /** newConnection runs connectionEstablished itself when the connection belongs to the base loop. */
  lemma EstablishNowTokens(cfg: Config, ls: Loops, ids: set<nat>, l: nat, c: nat, io: nat, s: Stage)
    requires LoopsOk(ls, ids) && l in ls && ls[l].cont == PushEstablish(c) && TokensOk(cfg, ls, c, io, s)
    ensures s == Fresh && l == cfg.base
    ensures TokensMoved(cfg, ls, SetCont(ls, l, Idle), ids, c, io, Live)
  {
    hide LoopsOk;
    ContMove(ls, ids, l, Idle);
    assert Owes(ls, l, PushEstablish(c));
  }

  /** removeConnection runs removeConnectionInLoop itself when it is called on the base loop. */
  lemma EraseNowTokens(cfg: Config, ls: Loops, ids: set<nat>, c: nat, io: nat, s: Stage)
    requires LoopsOk(ls, ids) && cfg.base in ls && ls[cfg.base].cont == PushRemove(c) && TokensOk(cfg, ls, c, io, s)
    requires c in ids
    ensures s == Closing && io == cfg.base
    ensures TokensMoved(cfg, ls, SetCont(ls, cfg.base, PushDestroy(c)), ids, c, io, Gone)
  {
    hide LoopsOk;
    ContMove(ls, ids, cfg.base, PushDestroy(c));
    assert Owes(ls, cfg.base, PushRemove(c));
  }

  /** The functor that a hand-off for c at stage s pushes, and the loop it pushes to. */
  predicate HandOff(cfg: Config, cont: Cont, io: nat, f: Functor, m: nat, s: Stage) {
    match cont
    case Idle => false
    case PushEstablish(c) => f == Establish(c) && m == io && s == Fresh
    case PushRemove(c) => f == RemoveConn(c) && m == cfg.base && s == Closing
    case PushDestroy(c) => f == DestroyConn(c) && m == io && s == Gone
  }

  lemma PushTokens(cfg: Config, ls: Loops, ids: set<nat>, l: nat, c: nat, io: nat, s: Stage, f: Functor, m: nat)
    requires LoopsOk(ls, ids) && l in ls && m in ls && !ls[l].cont.Idle? && ls[l].cont.c == c && c in ids
    requires TokensOk(cfg, ls, c, io, s) && HandOff(cfg, ls[l].cont, io, f, m, s)
    ensures TokensMoved(cfg, ls, Enqueue(SetCont(ls, l, Idle), m, f), ids, c, io, s)
  {
    hide LoopsOk, SetCont, Enqueue;
    assert Owes(ls, l, ls[l].cont);
    ContMove(ls, ids, l, Idle);
    var mid := SetCont(ls, l, Idle);
    assert !Queued(ls, m, f);
    PushMove(mid, ids, m, f);
  }

  lemma ContinueKeepsInv(cfg: Config, w: World, l: nat)
    requires Inv(cfg, w) && Enabled(cfg, w, Continue(l))
    ensures Inv(cfg, Step(cfg, w, Continue(l)))
  {
    hide Name, StageAfter, TokensOk, Untouched, LoopsOk, SetCont, Enqueue;
    var ids := w.conns.Keys;
    var c := w.loops[l].cont.c;
    var k := w.conns[c];
    var v := DoContinue(cfg, w, l);
    assert StageOk(cfg, w, c);
    StageForCont(cfg, w.loops, l, c, k.loop, k.stage);
    match w.loops[l].cont {
      case PushEstablish(_) =>
        if k.loop == l {
          EstablishNowTokens(cfg, w.loops, ids, l, c, k.loop, k.stage);
          StageExtends(k.hist, Established);
        } else {
          PushTokens(cfg, w.loops, ids, l, c, k.loop, k.stage, Establish(c), k.loop);
        }
      case PushRemove(_) =>
        if l == cfg.base {
          EraseNowTokens(cfg, w.loops, ids, c, k.loop, k.stage);
          StageExtends(k.hist, Erased);
        } else {
          PushTokens(cfg, w.loops, ids, l, c, k.loop, k.stage, RemoveConn(c), cfg.base);
        }
      case PushDestroy(_) =>
        PushTokens(cfg, w.loops, ids, l, c, k.loop, k.stage, DestroyConn(c), k.loop);
    }
    assert v.conns.Keys == ids;
    MovedKeepsInv(cfg, w, v, c);
  }

  lemma StageForCont(cfg: Config, ls: Loops, l: nat, c: nat, io: nat, s: Stage)
    requires TokensOk(cfg, ls, c, io, s) && l in ls && !ls[l].cont.Idle? && ls[l].cont.c == c
    ensures match ls[l].cont
            case PushEstablish(_) => s == Fresh
            case PushRemove(_) => s == Closing
            case PushDestroy(_) => s == Gone
  {
    assert Owes(ls, l, ls[l].cont);
  }

  // ---------------------------------------------------------------- functors

  /** The stage a functor finds its connection at, and the one it leaves it at. */
  function Before(f: Functor): Stage {
    match f
    case Establish(_) => Fresh
    case RemoveConn(_) => Closing
    case _ => Gone
  }

  /** establish and destroy consume the connection's only token. */
  lemma ConsumeTokens(cfg: Config, ls: Loops, ids: set<nat>, l: nat, c: nat, io: nat, s: Stage)
    requires LoopsOk(ls, ids) && l in ls && ls[l].phase.Running? && ls[l].phase.batch != []
    requires ls[l].phase.batch[0] == Establish(c) || ls[l].phase.batch[0] == DestroyConn(c)
    requires TokensOk(cfg, ls, c, io, s)
    ensures s == Before(ls[l].phase.batch[0]) && io == l
    ensures TokensMoved(cfg, ls, SetPhase(ls, l, Running(ls[l].phase.batch[1..])), ids, c, io,
                        if s == Fresh then Live else Dead)
  {
    hide LoopsOk;
    PopMove(ls, ids, l);
  }

  /** removeConnectionInLoop turns its token into the hand-off of connectionDestroyed. */
  lemma EraseTokens(cfg: Config, ls: Loops, ids: set<nat>, l: nat, c: nat, io: nat, s: Stage)
    requires LoopsOk(ls, ids) && l in ls && ls[l].phase.Running? && ls[l].phase.batch != [] && ls[l].cont.Idle?
    requires ls[l].phase.batch[0] == RemoveConn(c) && TokensOk(cfg, ls, c, io, s) && c in ids
    ensures s == Closing && l == cfg.base
    ensures TokensMoved(cfg, ls, SetCont(SetPhase(ls, l, Running(ls[l].phase.batch[1..])), l, PushDestroy(c)),
                        ids, c, io, Gone)
  {
    hide LoopsOk, SetCont;
    PopMove(ls, ids, l);
    ContMove(SetPhase(ls, l, Running(ls[l].phase.batch[1..])), ids, l, PushDestroy(c));
    assert Owes(ls, l, Idle);
  }

  lemma FunctorKeepsInv(cfg: Config, w: World, l: nat)
    requires Inv(cfg, w) && Enabled(cfg, w, RunFunctor(l))
    ensures Inv(cfg, Step(cfg, w, RunFunctor(l)))
  {
    hide Name, StageAfter, TokensOk, Untouched, LoopsOk, SetCont, SetPhase;
    var f := w.loops[l].phase.batch[0];
    match f
    case Task(_) =>
      PopMove(w.loops, w.conns.Keys, l);
      TaskKeepsInv(cfg, w, SetPhase(w.loops, l, Running(w.loops[l].phase.batch[1..])));
    case RemoveConn(c) => RemoveKeepsInv(cfg, w, l, c);
    case Establish(c) => ConsumeKeepsInv(cfg, w, l, c);
    case DestroyConn(c) => ConsumeKeepsInv(cfg, w, l, c);
  }

  /** removeConnectionInLoop as a functor. */
  lemma RemoveKeepsInv(cfg: Config, w: World, l: nat, c: nat)
    requires Inv(cfg, w) && Enabled(cfg, w, RunFunctor(l)) && w.loops[l].phase.batch[0] == RemoveConn(c)
    ensures Inv(cfg, DoFunctor(cfg, w, l))
  {
    hide Name, StageAfter, TokensOk, Untouched, LoopsOk, SetCont, SetPhase;
    var k := w.conns[c];
    var v := DoFunctor(cfg, w, l);
    assert StageOk(cfg, w, c);
    EraseTokens(cfg, w.loops, w.conns.Keys, l, c, k.loop, k.stage);
    StageExtends(k.hist, Erased);
    assert v.conns.Keys == w.conns.Keys;
    MovedKeepsInv(cfg, w, v, c);
  }

  /** connectionEstablished and connectionDestroyed as functors. */
  lemma ConsumeKeepsInv(cfg: Config, w: World, l: nat, c: nat)
    requires Inv(cfg, w) && Enabled(cfg, w, RunFunctor(l))
    requires w.loops[l].phase.batch[0] in {Establish(c), DestroyConn(c)}
    ensures Inv(cfg, DoFunctor(cfg, w, l))
  {
    hide Name, StageAfter, TokensOk, Untouched, LoopsOk, SetPhase;
    var k := w.conns[c];
    var v := DoFunctor(cfg, w, l);
    assert StageOk(cfg, w, c);
    ConsumeTokens(cfg, w.loops, w.conns.Keys, l, c, k.loop, k.stage);
    StageExtends(k.hist, if w.loops[l].phase.batch[0].Establish? then Established else Destroyed);
    assert v.conns.Keys == w.conns.Keys;
    MovedKeepsInv(cfg, w, v, c);
  }

  // ---------------------------------------------------------------- accept

  /** A new id is referred to by nobody. */
  lemma NewIdIsUnused(ls: Loops, ids: set<nat>, c: nat)
    requires LoopsOk(ls, ids) && c !in ids
    ensures forall l, f | About(f, c) :: !Queued(ls, l, f)
    ensures forall l, k: Cont | !k.Idle? && k.c == c :: !Owes(ls, l, k)
    ensures forall l :: !IsActive(ls, l, c)
  {}

  lemma AcceptTokens(cfg: Config, ls: Loops, ids: set<nat>, c: nat, io: nat)
    requires LoopsOk(ls, ids) && cfg.base in ls && ls[cfg.base].cont.Idle? && c !in ids
    ensures TokensMoved(cfg, ls, SetCont(ls, cfg.base, PushEstablish(c)), ids + {c}, c, io, Fresh)
  {
    NewIdIsUnused(ls, ids, c);
    assert forall l | l in ls :: LoopOk(ls[l], ids + {c});
    ContMove(ls, ids + {c}, cfg.base, PushEstablish(c));
    assert Owes(ls, cfg.base, Idle);
    assert About(Establish(c), c) && About(RemoveConn(c), c) && About(DestroyConn(c), c);
  }

  lemma AcceptKeepsInv(cfg: Config, w: World, io: nat, fd: int)
    requires Inv(cfg, w) && Enabled(cfg, w, Accept(io, fd))
    ensures Inv(cfg, Step(cfg, w, Accept(io, fd)))
  {
    hide Name, TokensOk, Untouched, LoopsOk, SetCont, StageAfter, Matches, InTable;
    var id := w.nextId;
    var v := DoAccept(cfg, w, io, fd);
    NewIdIsNew(cfg, w);
    AcceptTokens(cfg, w.loops, w.conns.Keys, id, io);
    assert v.conns.Keys == w.conns.Keys + {id};
    FreshMatches(cfg, w, io, fd);
    assert StageOk(cfg, v, id);
    forall d | d in w.conns
      ensures InTable(cfg, v, d) == InTable(cfg, w, d)
    {
      EntryStays(cfg, w, io, fd, d);
    }
    ConnsStayOk(cfg, w, v, id);
  }

  /** A new id is greater than all others, and its name is not one of theirs. */
  lemma NewIdIsNew(cfg: Config, w: World)
    requires Inv(cfg, w) && w.nextId <= INT_MAX
    ensures forall d | d in w.conns :: d < w.nextId && Name(cfg, d) != Name(cfg, w.nextId)
    ensures w.nextId !in w.conns && Name(cfg, w.nextId) !in w.table
  {
    hide Name, TokensOk, StageAfter, Matches, LoopsOk;
    forall d | d in w.conns
      ensures d < w.nextId && Name(cfg, d) != Name(cfg, w.nextId)
    {
      assert StageOk(cfg, w, d);
      NamesDiffer(cfg, d, w.nextId);
    }
  }

  lemma FreshMatches(cfg: Config, w: World, io: nat, fd: int)
    requires cfg.base in w.loops
    ensures var v := DoAccept(cfg, w, io, fd);
            Matches(v.conns[w.nextId], InTable(cfg, v, w.nextId)) && StageAfter(v.conns[w.nextId].hist) == Some(Fresh)
  {
    hide Name, SetCont;
  }

  lemma EntryStays(cfg: Config, w: World, io: nat, fd: int, d: nat)
    requires cfg.base in w.loops && d != w.nextId && Name(cfg, d) != Name(cfg, w.nextId)
    ensures InTable(cfg, DoAccept(cfg, w, io, fd), d) == InTable(cfg, w, d)
  {
    hide Name, SetCont;
  }

  // ---------------------------------------------------------------- all steps, all runs

  lemma StepKeepsInv(cfg: Config, w: World, a: Action)
    requires Inv(cfg, w) && Enabled(cfg, w, a)
    ensures Inv(cfg, Step(cfg, w, a))
  {
    hide Inv, DoAccept, DoEvent, DoContinue, DoFunctor;
    match a
    case PollReturn(l, active) => PollKeepsInv(cfg, w, l, active);
    case Accept(io, fd) => AcceptKeepsInv(cfg, w, io, fd);
    case HandleEvent(l, closes) => EventKeepsInv(cfg, w, l, closes);
    case CallShutdown(l, c) => ShutdownKeepsInv(cfg, w, l, c);
    case Continue(l) => ContinueKeepsInv(cfg, w, l);
    case TakeBatch(l) =>
      assert [] + w.loops[l].queue == w.loops[l].queue + [];
      BatchKeepsInv(cfg, w, l, Running(w.loops[l].queue), []);
    case RunFunctor(l) => FunctorKeepsInv(cfg, w, l);
    case EndBatch(l) => BatchKeepsInv(cfg, w, l, Polling, w.loops[l].queue);
    case PushTask(l, k) => PushTaskKeepsInv(cfg, w, l, k);
  }

  lemma PushTaskKeepsInv(cfg: Config, w: World, l: nat, k: int)
    requires Inv(cfg, w) && l in w.loops
    ensures Inv(cfg, w.(loops := Enqueue(w.loops, l, Task(k))))
  {
    hide TokensOk, StageOk, LoopsOk, Enqueue;
    PushMove(w.loops, w.conns.Keys, l, Task(k));
    TaskKeepsInv(cfg, w, Enqueue(w.loops, l, Task(k)));
  }

  lemma InitIsInv(cfg: Config, w: World)
    requires Init(cfg, w)
    ensures Inv(cfg, w)
  {}

  lemma {:induction false} RunKeepsInv(cfg: Config, w: World, acts: seq<Action>)
    requires Inv(cfg, w) && LegalRun(cfg, w, acts)
    ensures Inv(cfg, Run(cfg, w, acts))
    decreases |acts|
  {
    hide Inv, Step;
    if acts != [] {
      StepKeepsInv(cfg, w, acts[0]);
      RunKeepsInv(cfg, Step(cfg, w, acts[0]), acts[1..]);
    }
  }
}
