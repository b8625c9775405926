/** Who moves whom: a player's input is the last MOVE of its own session, and the next tick
    applies exactly that. */
module Steering {
  import opened Protocol
  import opened Movement
  import opened Database
  import opened World
  import opened System
  import opened Ownership

  /** The events that may change what session `i`'s entity is about to do. */
  predicate Concerns(ev: Event, i: SessionId) {
    || ev.TickEvent?
    || (ev.DropSession? && ev.session == i)
    || (ev.Receive? && ev.session == i && ev.request.Move?)
  }

  /** The entity is still the session's, and as it was. */
  predicate LeftAlone(s: Server, s': Server, i: SessionId, e: EntityId) {
    e in s.world && Owns(s', i, e) && e in s'.world && s'.world[e] == s.world[e]
  }

  lemma DispatchLeavesOthersAlone(s: Server, j: SessionId, request: Request, i: SessionId, e: EntityId)
    requires Owned(s) && Owns(s, i, e) && j < |s.sessions| && !(j == i && request.Move?)
    ensures LeftAlone(s, Dispatch(s, j, request), i, e)
  {
    assert e in s.world;
    if j != i && s.sessions[j].hasEntity {
      assert s.sessions[j].entityId != e;
    }
  }

  lemma FirstPacketLeavesOthersAlone(s: Server, t: Tables, j: SessionId, request: Request, env: AuthEnv,
                                     i: SessionId, e: EntityId)
    requires Owned(s) && Owns(s, i, e) && j < |s.sessions| && s.sessions[j].phase == WaitingForAuth
    ensures LeftAlone(s, FirstPacket(s, t, j, request, env).0, i, e)
  {
    assert e in s.world && e < s.nextEntity;
    assert j != i;
  }

  lemma PacketLeavesOthersAlone(x: State, ev: Event, i: SessionId, e: EntityId)
    requires Owned(x.server) && Owns(x.server, i, e)
    requires ev.Receive? && Enabled(x, ev) && !Concerns(ev, i)
    ensures LeftAlone(x.server, Step(x, ev).server, i, e)
  {
    if x.server.sessions[ev.session].phase == WaitingForAuth {
      FirstPacketLeavesOthersAlone(x.server, x.tables, ev.session, ev.request, Env(x, ev), i, e);
    } else {
      DispatchLeavesOthersAlone(x.server, ev.session, ev.request, i, e);
    }
  }

  lemma DestroyLeavesOwnedAlone(x: State, ev: Event, i: SessionId, e: EntityId)
    requires Owned(x.server) && Owns(x.server, i, e)
    requires ev.DestroyEntity? && Enabled(x, ev)
    ensures Owns(Step(x, ev).server, i, e) && e in Step(x, ev).server.world
    ensures Step(x, ev).server.world[e] == x.server.world[e]
  {
    assert e in x.server.world && HasOwner(x.server, e);
    assert x.server.pending[ev.index] in x.server.pending;
  }

  /** No other session, no login, no departure of somebody else touches a player's entity. */
  lemma OnlyItsSessionSteers(x: State, ev: Event, i: SessionId, e: EntityId)
    requires Owned(x.server) && Owns(x.server, i, e) && !Concerns(ev, i)
    ensures Owns(Step(x, ev).server, i, e) && e in Step(x, ev).server.world
    ensures Step(x, ev).server.world[e] == x.server.world[e]
  {
    assert e in x.server.world;
    if Enabled(x, ev) {
      match ev
      case Receive(_, _, _, _) => PacketLeavesOthersAlone(x, ev, i, e);
      case DestroyEntity(_, _) => DestroyLeavesOwnedAlone(x, ev, i, e);
      case _ =>
    }
  }

  lemma {:induction false} EntityUntouched(x: State, run: seq<Event>, i: SessionId, e: EntityId)
    requires Owned(x.server) && Owns(x.server, i, e)
    requires forall ev | ev in run :: !Concerns(ev, i)
    ensures Owns(Exec(x, run).server, i, e) && e in Exec(x, run).server.world
    ensures Exec(x, run).server.world[e] == x.server.world[e]
  {
    if run == [] {
      assert e in x.server.world;
    } else {
      var front := run[..|run| - 1];
      assert forall ev | ev in front :: ev in run;
      EntityUntouched(x, front, i, e);
      RunKeepsOwned(x, front);
      OnlyItsSessionSteers(Exec(x, front), run[|run| - 1], i, e);
    }
  }

  lemma MoveRecordsIntent(x: State, ev: Event, e: EntityId)
    requires Owned(x.server) && ev.Receive? && ev.request.Move? && Enabled(x, ev) && Owns(x.server, ev.session, e)
    ensures e in x.server.world
    ensures var s' := Step(x, ev).server;
            && Owns(s', ev.session, e) && e in s'.world
            && s'.world[e] == x.server.world[e].(input := PlayerInput(ev.request.moveFlags, ev.request.yaw))
  {
    assert e in x.server.world;
    assert x.server.sessions[ev.session].phase == Authenticated;
  }

  /** A MOVE moves nobody at once; whatever else happens until the next tick, that tick then
      moves the sender's entity, from where it stood, by one step of exactly these keys at
      exactly this heading, turns it to the heading, and keeps its height. */
  lemma TickAppliesLatestMove(x: State, ev: Event, between: seq<Event>, tick: Event, e: EntityId)
    requires Owned(x.server) && ev.Receive? && ev.request.Move? && Enabled(x, ev) && Owns(x.server, ev.session, e)
    requires forall other | other in between :: !Concerns(other, ev.session)
    requires tick.TickEvent? && Enabled(Exec(Step(x, ev), between), tick)
    ensures e in x.server.world && e in Step(Exec(Step(x, ev), between), tick).server.world
    ensures var p, q := x.server.world[e].position, Step(Exec(Step(x, ev), between), tick).server.world[e].position;
            && StepsTo(Vec2(p.x, p.z), Vec2(q.x, q.z), ev.request.moveFlags, ev.request.yaw, 1.28 * 0.05)
            && q.y == p.y && q.yaw == ev.request.yaw
  {
    MoveRecordsIntent(x, ev, e);
    StepKeepsOwned(x, ev);
    EntityUntouched(Step(x, ev), between, ev.session, e);
    var y := Exec(Step(x, ev), between);
    TickKeepsOwners(y.server, y.tables, tick.order, tick.failed, ev.session, e);
    MovedInCoordinates(y.server.world[e]);
  }

  /** Nobody's keys are held for this entity. */
  predicate HandsOff(s: Server, e: EntityId) {
    e in s.world && s.world[e].input.moveFlags == 0
  }

  lemma NoKeysNoStep(e: Entity)
    requires e.input.moveFlags == 0
    ensures var p, q := e.position, Moved(e).position;
            (q.x, q.y, q.z) == (p.x, p.y, p.z)
  {
    var d := Direction(0, e.input.yaw);
    assert Axis(0, UP, DOWN) == 0.0 && Axis(0, RIGHT, LEFT) == 0.0;
    assert d.x == 0.0 && d.z == 0.0;
  }

  lemma TickKeepsOwners(s: Server, t: Tables, order: seq<EntityId>, failed: set<EntityId>, i: SessionId, e: EntityId)
    requires Owns(s, i, e) && e in s.world && Enumerates(order, s.world)
    ensures var s' := Tick(s, t, order, failed).0;
            Owns(s', i, e) && e in s'.world && s'.world[e] == Moved(s.world[e])
  {
  }

  lemma TickLeavesStanding(x: State, ev: Event, i: SessionId, e: EntityId)
    requires Owns(x.server, i, e) && HandsOff(x.server, e) && ev.TickEvent? && Enabled(x, ev)
    ensures Owns(Step(x, ev).server, i, e) && HandsOff(Step(x, ev).server, e)
    ensures var p, q := x.server.world[e].position, Step(x, ev).server.world[e].position;
            (q.x, q.y, q.z) == (p.x, p.y, p.z)
  {
    TickKeepsOwners(x.server, x.tables, ev.order, ev.failed, i, e);
    NoKeysNoStep(x.server.world[e]);
  }

  /** Standing still: an entity whose keys are up stays where it is, whatever ticks and other
      players do, until its own session moves it or goes. */
  lemma {:induction false} StandsUntilMoved(x: State, run: seq<Event>, i: SessionId, e: EntityId)
    requires Owned(x.server) && Owns(x.server, i, e) && HandsOff(x.server, e)
    requires forall ev | ev in run :: ev.TickEvent? || !Concerns(ev, i)
    ensures Owns(Exec(x, run).server, i, e) && HandsOff(Exec(x, run).server, e)
    ensures var p, q := x.server.world[e].position, Exec(x, run).server.world[e].position;
            (q.x, q.y, q.z) == (p.x, p.y, p.z)
  {
    if run != [] {
      var front, ev := run[..|run| - 1], run[|run| - 1];
      assert forall other | other in front :: other in run;
      StandsUntilMoved(x, front, i, e);
      RunKeepsOwned(x, front);
      if !ev.TickEvent? {
        OnlyItsSessionSteers(Exec(x, front), ev, i, e);
      } else if Enabled(Exec(x, front), ev) {
        TickLeavesStanding(Exec(x, front), ev, i, e);
      }
    }
  }

  lemma NewcomerOwns(x: State, ev: Event)
    requires Owned(x.server) && ev.Receive? && Enabled(x, ev) && AdmissionOf(x, ev).Admitted?
    ensures Owns(Step(x, ev).server, ev.session, x.server.nextEntity)
    ensures HandsOff(Step(x, ev).server, x.server.nextEntity)
    ensures var a, still := AdmissionOf(x, ev), SinCos(0.0, 1.0);
            Step(x, ev).server.world[x.server.nextEntity] ==
            Entity(PlayerData(a.username, a.characterId), Position(a.x, a.y, a.z, still), PlayerInput(0, still))
  {
  }

  /** In particular a player who has just entered stands where its character was saved until
      its first MOVE. */
  lemma NewcomerStandsWhereSaved(x: State, ev: Event, run: seq<Event>)
    requires Owned(x.server) && ev.Receive? && Enabled(x, ev) && AdmissionOf(x, ev).Admitted?
    requires forall other | other in run :: other.TickEvent? || !Concerns(other, ev.session)
    ensures x.server.nextEntity in Exec(Step(x, ev), run).server.world
    ensures var p, a := Exec(Step(x, ev), run).server.world[x.server.nextEntity].position, AdmissionOf(x, ev);
            (p.x, p.y, p.z) == (a.x, a.y, a.z)
  {
    NewcomerOwns(x, ev);
    StepKeepsOwned(x, ev);
    StandsUntilMoved(Step(x, ev), run, ev.session, x.server.nextEntity);
  }
}
