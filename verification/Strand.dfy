/** The strand: it runs the game server's handlers one after the other.  Each takes the objects from
    one state of the step system to the next; module Servers does so for whole runs, with the login
    server at work in between. */
module Strand {
  import opened Protocol
  import opened Database
  import opened World
  import opened System
  import opened Ownership
  import G = GameServer

  /** The events that are handlers of this server. */
  predicate GameEvent(e: Event) {
    e.Connect? || e.Receive? || e.TickEvent? || e.DropSession? || e.DestroyEntity?
  }

  class Strand {
    const game: G.GameServer
    // the connections the I/O context holds handlers for
    var connections: seq<G.PlayerSession>

    constructor (game: G.GameServer)
      requires game.Valid() && game.State() == EMPTY && game.accepted == []
      ensures Valid() && this.game == game
    {
      this.game := game;
      connections := [];
    }

    ghost predicate Valid()
      reads this, game, game.accepted
    {
      connections == game.accepted && game.Valid()
    }

    /** A packet's posted handler. */
    method OnPacket(i: SessionId, request: Request, env: AuthEnv)
      requires Valid() && Owned(game.State()) && i < |connections|
      modifies game, game.accepted, game.db
      ensures game.Valid() && game.accepted == old(game.accepted)
      ensures (game.State(), game.db.tables) == ProcessPacket(old(game.State()), old(game.db.tables), i, request, env)
    {
      var session := connections[i];
      assert session in game.accepted && session.id == i && game.State().sessions[i] == session.Snapshot();
      ghost var registry := game.State().registry;
      assert forall s | s in game.sessions :: s.id in registry;
      game.ProcessPacket(session, request, env);
    }

    /** The acceptor's handler. */
    method OnConnect()
      requires connections == game.accepted && game.Valid()
      modifies this`connections, game`accepted
      ensures connections == game.accepted && game.Valid() && NothingOld()
      ensures game.State() == Accept(old(game.State()))
    {
      var session := game.Accept();
      connections := connections + [session];
    }

    /** Connections are only ever added. */
    twostate predicate NothingOld()
      reads game
    {
      forall k | 0 <= k < |game.accepted| ::
        (k < |old(game.accepted)| && game.accepted[k] == old(game.accepted)[k]) || fresh(game.accepted[k])
    }

    /** The last reference to a session goes. */
    method OnDrop(i: SessionId)
      requires connections == game.accepted && game.Valid() && i < |connections|
      modifies game, game.accepted
      ensures game.accepted == old(game.accepted) && game.Valid() && game.State() == Drop(old(game.State()), i)
    {
      game.Drop(connections[i]);
    }

    /** A posted packet's turn. */
    method OnReceive(e: Event, clock: int, ghost x: State)
      requires Valid() && Reached(x) && x.server == game.State() && x.tables == game.db.tables && x.clock == clock
      requires e.Receive? && Enabled(x, e)
      modifies game, game.accepted, game.db
      ensures game.accepted == old(game.accepted) && game.Valid()
      ensures game.State() == Step(x, e).server && game.db.tables == Step(x, e).tables
    {
      ReachedIsOwned(x);
      OnPacket(e.session, e.request, AuthEnv(clock, e.serial, e.fault));
    }

    /** The timer's, a destructor's or a posted destruction's. */
    method Handle(e: Event, clock: int, ghost x: State)
      requires Valid() && Reached(x) && x.server == game.State() && x.tables == game.db.tables && x.clock == clock
      requires (e.TickEvent? || e.DropSession? || e.DestroyEntity?) && Enabled(x, e)
      modifies game, game.accepted, game.db
      ensures game.accepted == old(game.accepted) && game.Valid()
      ensures game.State() == Step(x, e).server && game.db.tables == Step(x, e).tables
    {
      match e
      case TickEvent(order, failed) => game.GameLoopTick(order, failed);
      case DropSession(i) => OnDrop(i);
      case DestroyEntity(k, saveFails) => game.RunDestroy(k, saveFails);
    }

    /** One handler runs as one step, and ownership holds again when it is done. */
    method Perform(e: Event, clock: int, ghost x: State)
      requires Valid() && Reached(x) && x.server == game.State() && x.tables == game.db.tables && x.clock == clock
      requires GameEvent(e) && Enabled(x, e)
      modifies this, game, game.accepted, game.db
      ensures Valid() && NothingOld()
      ensures game.State() == Step(x, e).server && game.db.tables == Step(x, e).tables
    {
      if e.Connect? {
        OnConnect();
      } else if e.Receive? {
        OnReceive(e, clock, x);
      } else {
        Handle(e, clock, x);
      }
    }

    /** The next handler, or nothing for a while. */
    method Next(e: Event, clock: int, ghost x: State) returns (now: int)
      requires Valid() && Reached(x) && x.server == game.State() && x.tables == game.db.tables && x.clock == clock
      requires (GameEvent(e) || e.PassTime?) && Enabled(x, e)
      modifies this, game, game.accepted, game.db
      ensures Valid() && NothingOld() && now == Step(x, e).clock
      ensures game.State() == Step(x, e).server && game.db.tables == Step(x, e).tables
    {
      if e.PassTime? {
        now := clock + e.micros;
      } else {
        now := clock;
        Perform(e, clock, x);
      }
    }
  }
}
