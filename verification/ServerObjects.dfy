/**
  The TcpServer class of src/TcpServer.cc. Its own fields are the map of connections, the id counter
  and the functor queues it pushes to; the world of module Lifecycle beside them is ghost.
  Valid() ties the two and holds the life-cycle invariant, which every method keeps.
*/
module ServerObjects {
  import opened Names
  import opened Lifecycle
  import opened LifecycleProperties

  /** What the server asks of a TcpConnectionPtr: its name and its loop; id tells connections apart. */
  datatype ConnPtr = ConnPtr(id: nat, name: string, loop: nat)

  class TcpServer {
    const cfg: Config
    var connections: map<string, ConnPtr>
    var nextConnId: nat
    var pending: map<nat, seq<Functor>>
    ghost var world: World

    /** The pointer is to a connection of the world. */
    ghost predicate PointsWell(p: ConnPtr)
      reads this
    {
      p.id in world.conns && p.name == Name(cfg, p.id) && p.loop == world.conns[p.id].loop
    }

    ghost predicate TableLinked()
      reads this
    {
      && connections.Keys == world.table.Keys
      && forall name | name in connections :: connections[name].id == world.table[name] && PointsWell(connections[name])
    }

    ghost predicate QueuesLinked()
      reads this
    {
      pending.Keys == world.loops.Keys && forall l | l in pending :: pending[l] == world.loops[l].queue
    }

    ghost predicate Valid()
      reads this
    {
      TableLinked() && QueuesLinked() && nextConnId == world.nextId && Inv(cfg, world)
    }

    constructor (cfg: Config, ghost start: World, loops: set<nat>)
      requires Init(cfg, start) && loops == start.loops.Keys
      ensures Valid() && this.cfg == cfg && world == start
      ensures connections == map[] && nextConnId == 1
    {
      this.cfg, world := cfg, start;
      connections, nextConnId, pending := map[], 1, map l | l in loops :: [];
      new;
      InitIsInv(cfg, start);
    }

    /** The push of queueInLoop. */
    method QueueInLoop(l: nat, f: Functor)
      requires l in pending
      modifies this`pending
      ensures pending == old(pending)[l := old(pending[l]) + [f]]
    {
      pending := pending[l := pending[l] + [f]];
    }

    /**
      newConnection up to its hand-off: the new connection is entered under a name that no other
      has, and every other entry stays.
    */
    method Enter(ioLoop: nat, sockfd: int) returns (conn: ConnPtr)
      requires Valid() && Enabled(cfg, world, Accept(ioLoop, sockfd))
      modifies this`connections, this`nextConnId, this`world
      ensures Valid() && world == Step(cfg, old(world), Accept(ioLoop, sockfd))
      ensures conn.name !in old(connections) && connections == old(connections)[conn.name := conn]
      ensures PointsWell(conn) && conn.loop == ioLoop && world.loops[cfg.base].cont == PushEstablish(conn.id)
      ensures cfg.server <= conn.name && conn.id == old(nextConnId)
    {
      hide Inv, Name, Step;
      NewIdIsNew(cfg, world);
      EnteredWorld(cfg, world, ioLoop, sockfd);
      StepKeepsInv(cfg, world, Accept(ioLoop, sockfd));
      var connName := Name(cfg, nextConnId);
      conn := ConnPtr(nextConnId, connName, ioLoop);
      nextConnId := nextConnId + 1;
      connections := connections[connName := conn];
      world := Step(cfg, world, Accept(ioLoop, sockfd));
    }

    /**
      runInLoop of connectionEstablished on the base loop: afterwards the connection is established,
      or its establishment is queued behind everything its loop already has; never both.
    */
    method RunEstablished(conn: ConnPtr)
      requires Valid() && PointsWell(conn) && Enabled(cfg, world, Continue(cfg.base))
      requires world.loops[cfg.base].cont == PushEstablish(conn.id)
      modifies this`pending, this`world
      ensures Valid() && world == Step(cfg, old(world), Continue(cfg.base)) && PointsWell(conn)
      ensures world.conns[conn.id].stage == (if conn.loop == cfg.base then Live else Fresh)
      ensures Queued(world.loops, conn.loop, Establish(conn.id)) <==> conn.loop != cfg.base
      ensures world.loops[cfg.base].cont.Idle?
    {
      hide Name, Inv;
      ghost var w := world;
      StepKeepsInv(cfg, w, Continue(cfg.base));
      if conn.loop != cfg.base {
        QueueInLoop(conn.loop, Establish(conn.id));
      }
      world := Step(cfg, w, Continue(cfg.base));
      InvPlacesEstablish(cfg, world, conn.id);
    }

    method NewConnection(ioLoop: nat, sockfd: int) returns (conn: ConnPtr)
      requires Valid() && Enabled(cfg, world, Accept(ioLoop, sockfd))
      modifies this
      ensures Valid() && PointsWell(conn)
      ensures var w := Step(cfg, old(world), Accept(ioLoop, sockfd));
              Enabled(cfg, w, Continue(cfg.base)) && world == Step(cfg, w, Continue(cfg.base))
      ensures conn.name !in old(connections) && connections == old(connections)[conn.name := conn]
      ensures nextConnId == old(nextConnId) + 1 && conn.id == old(nextConnId) && cfg.server <= conn.name
    {
      hide Name, Inv;
      conn := Enter(ioLoop, sockfd);
      InvKnowsLoops(cfg, world, conn.id);
      RunEstablished(conn);
    }

    /**
      removeConnectionInLoop, run by the base loop as a functor or at once: the entry is gone, every
      other entry stays, and the destruction is queued last on the connection's loop, even
      when that is the loop that is running.
    */
    method RemoveConnectionInLoop(conn: ConnPtr, ghost how: Action)
      requires Valid() && PointsWell(conn) && Enabled(cfg, world, how)
      requires Removes(cfg, world, how, conn.id)
      modifies this
      ensures Valid() && PointsWell(conn)
      ensures var w := Step(cfg, old(world), how);
              Enabled(cfg, w, Continue(cfg.base)) && world == Step(cfg, w, Continue(cfg.base))
      ensures conn.name in old(connections) && connections == old(connections) - {conn.name}
      ensures pending[conn.loop] == old(pending[conn.loop]) + [DestroyConn(conn.id)]
      ensures world.conns[conn.id].stage == Gone
    {
      hide Name, Inv, Step;
      ghost var w := world;
      StepKeepsInv(cfg, w, how);
      ErasedWorld(cfg, w, how, conn.id);
      connections := connections - {conn.name};
      ghost var w1 := Step(cfg, w, how);
      InvKnowsLoops(cfg, w1, conn.id);
      HandedWorld(cfg, w1, conn.id);
      StepKeepsInv(cfg, w1, Continue(cfg.base));
      QueueInLoop(conn.loop, DestroyConn(conn.id));
      world := Step(cfg, w1, Continue(cfg.base));
    }

    /** removeConnection, called by the close callback of a connection on its loop. */
    method RemoveConnection(conn: ConnPtr)
      requires Valid() && PointsWell(conn) && Enabled(cfg, world, Continue(conn.loop))
      requires world.loops[conn.loop].cont == PushRemove(conn.id)
      modifies this
      ensures Valid() && PointsWell(conn)
      ensures var w := Step(cfg, old(world), Continue(conn.loop));
              if conn.loop != cfg.base then world == w
              else Enabled(cfg, w, Continue(cfg.base)) && world == Step(cfg, w, Continue(cfg.base))
      ensures conn.loop != cfg.base ==>
                connections == old(connections)
                && pending == old(pending)[cfg.base := old(pending[cfg.base]) + [RemoveConn(conn.id)]]
      ensures conn.loop == cfg.base ==> connections == old(connections) - {conn.name}
    {
      hide Name, Inv;
      if conn.loop == cfg.base {
        RemoveConnectionInLoop(conn, Continue(cfg.base));
      } else {
        StepKeepsInv(cfg, world, Continue(conn.loop));
        QueueInLoop(cfg.base, RemoveConn(conn.id));
        world := Step(cfg, world, Continue(conn.loop));
      }
    }
  }

  /** The step that runs removeConnectionInLoop for connection c. */
  predicate Removes(cfg: Config, w: World, how: Action, c: nat)
    requires Enabled(cfg, w, how)
  {
    || (how == Continue(cfg.base) && w.loops[cfg.base].cont == PushRemove(c))
    || (how == RunFunctor(cfg.base) && w.loops[cfg.base].phase.batch[0] == RemoveConn(c))
  }

  lemma InvPlacesEstablish(cfg: Config, w: World, c: nat)
    requires Inv(cfg, w) && c in w.conns
    ensures w.conns[c].loop in w.loops
    ensures Queued(w.loops, w.conns[c].loop, Establish(c)) ==> w.conns[c].stage == Fresh
    ensures w.conns[c].stage == Fresh && w.loops[cfg.base].cont.Idle? ==>
              Queued(w.loops, w.conns[c].loop, Establish(c))
  {
    hide Name, StageAfter;
    assert StageOk(cfg, w, c) && TokensOk(cfg, w.loops, c, w.conns[c].loop, w.conns[c].stage);
  }

  /** What newConnection makes of the world, up to its hand-off. */
  lemma EnteredWorld(cfg: Config, w: World, io: nat, fd: int)
    requires Inv(cfg, w) && Enabled(cfg, w, Accept(io, fd))
    ensures var v, c := Step(cfg, w, Accept(io, fd)), w.nextId;
            && v.table == w.table[Name(cfg, c) := c] && v.nextId == c + 1 && cfg.server <= Name(cfg, c)
            && v.conns.Keys == w.conns.Keys + {c} && v.conns[c].loop == io
            && (forall d | d in w.conns && d != c :: v.conns[d] == w.conns[d])
            && v.loops.Keys == w.loops.Keys && v.loops[cfg.base].cont == PushEstablish(c)
            && (forall l | l in w.loops :: v.loops[l].queue == w.loops[l].queue)
  {
    hide ConnName;
    NameReadsBack(cfg.server, cfg.listen, w.nextId);
  }

  lemma InvKnowsLoops(cfg: Config, w: World, c: nat)
    requires Inv(cfg, w) && c in w.conns
    ensures cfg.base in w.loops && w.conns[c].loop in w.loops
  {
    assert StageOk(cfg, w, c);
  }

  /** The hand-off of connectionDestroyed only queues it. */
  lemma HandedWorld(cfg: Config, w: World, c: nat)
    requires cfg.base in w.loops && c in w.conns && w.conns[c].loop in w.loops
    requires w.loops[cfg.base].cont == PushDestroy(c)
    ensures Enabled(cfg, w, Continue(cfg.base))
    ensures var q, io := Step(cfg, w, Continue(cfg.base)), w.conns[c].loop;
            && q.conns == w.conns && q.table == w.table && q.nextId == w.nextId && q.loops.Keys == w.loops.Keys
            && forall l | l in w.loops ::
                 q.loops[l].queue == if l == io then w.loops[l].queue + [DestroyConn(c)] else w.loops[l].queue
  {
    hide Name;
  }

  /** A removal finds the entry and takes exactly it. */
  lemma ErasedWorld(cfg: Config, w: World, how: Action, c: nat)
    requires Inv(cfg, w) && Enabled(cfg, w, how) && Removes(cfg, w, how, c) && c in w.conns
    ensures Name(cfg, c) in w.table && w.table[Name(cfg, c)] == c
    ensures var w1 := Step(cfg, w, how);
            && w1.table == w.table - {Name(cfg, c)} && w1.nextId == w.nextId
            && w1.conns.Keys == w.conns.Keys && (forall d | d in w.conns :: w1.conns[d].loop == w.conns[d].loop)
            && w1.conns[c].stage == Gone
            && w1.loops.Keys == w.loops.Keys && (forall l | l in w.loops :: w1.loops[l].queue == w.loops[l].queue)
            && w1.loops[cfg.base].cont == PushDestroy(c)
  {
    hide Name, StageAfter, LoopsOk;
    assert StageOk(cfg, w, c) && TokensOk(cfg, w.loops, c, w.conns[c].loop, w.conns[c].stage);
    if how.RunFunctor? {
      assert w.loops[cfg.base].Items()[0] == RemoveConn(c);
      assert Queued(w.loops, cfg.base, RemoveConn(c));
    } else {
      assert Owes(w.loops, cfg.base, PushRemove(c));
    }
  }
}
