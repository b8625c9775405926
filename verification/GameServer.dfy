/** The game server as it runs: an entity registry with one pool per component, sessions as
    objects, a list of weak pointers to them, and handlers that update these in place.  Each
    handler is proved to take the server from the state `State()` to the state the functions
    of module World give. */
module GameServer {
  import opened Protocol
  import opened Movement
  import opened Database
  import opened World

  class PlayerSession {
    ghost const id: SessionId
    var phase: Phase
    var hasEntity: bool
    var entityId: EntityId
    var alive: bool
    var open: bool
    var sent: seq<Message>

    constructor (ghost id: SessionId)
      ensures this.id == id && Snapshot() == NEW_SESSION
    {
      this.id := id;
      phase := WaitingForAuth;
      hasEntity := false;
      entityId := 0;
      alive := true;
      open := true;
      sent := [];
    }

    function Snapshot(): Session
      reads this
    {
      Session(phase, hasEntity, entityId, alive, open, sent)
    }

    /** async_write: one more message on this session's stream. */
    method Send(m: Message)
      modifies this`sent
      ensures sent == old(sent) + [m]
    {
      sent := sent + [m];
    }
  }

  ghost function IdsOf(ss: seq<PlayerSession>): (r: seq<SessionId>)
    ensures |r| == |ss|
    ensures forall k | 0 <= k < |ss| :: r[k] == ss[k].id
  {
    seq(|ss|, k requires 0 <= k < |ss| => ss[k].id)
  }

  ghost function Snapshots(ss: seq<PlayerSession>): (r: seq<Session>)
    reads ss
    ensures |r| == |ss|
    ensures forall i | 0 <= i < |ss| :: r[i] == ss[i].Snapshot()
  {
    if ss == [] then [] else Snapshots(ss[..|ss| - 1]) + [ss[|ss| - 1].Snapshot()]
  }

  class GameServer {
    const db: Connection
    // the entity registry: live entities and one pool per component
    var valid: set<EntityId>
    var players: map<EntityId, PlayerData>
    var positions: map<EntityId, Position>
    var inputs: map<EntityId, PlayerInput>
    var nextEntity: EntityId
    // g_sessions
    var sessions: seq<PlayerSession>
    // destructions posted to the strand
    var pending: seq<EntityId>
    var tickCount: nat
    // every session ever accepted
    ghost var accepted: seq<PlayerSession>

    constructor (db: Connection)
      ensures Valid() && State() == EMPTY && this.db == db && accepted == []
    {
      this.db := db;
      valid, players, positions, inputs, nextEntity := {}, map[], map[], map[], 0;
      sessions, pending, tickCount, accepted := [], [], 0, [];
    }

    /** Every live entity has all three components. */
    ghost predicate PoolsAgree()
      reads this`valid, this`players, this`positions, this`inputs
    {
      players.Keys == valid && positions.Keys == valid && inputs.Keys == valid
    }

    /** Sessions are known by their place; the list holds no session twice. */
    ghost predicate ListGood()
      reads this`sessions, this`accepted
    {
      && (forall i | 0 <= i < |accepted| :: accepted[i].id == i)
      && (forall s | s in sessions :: s in accepted)
      && NoDuplicates(IdsOf(sessions))
    }

    ghost predicate Valid()
      reads this
    {
      PoolsAgree() && ListGood()
    }

    ghost function WorldNow(): map<EntityId, Entity>
      requires PoolsAgree()
      reads this`valid, this`players, this`positions, this`inputs
    {
      map e | e in valid :: Entity(players[e], positions[e], inputs[e])
    }

    ghost function SessionsNow(): (r: seq<Session>)
      reads this`accepted, accepted
      ensures |r| == |accepted|
      ensures forall i | 0 <= i < |accepted| :: r[i] == accepted[i].Snapshot()
    {
      Snapshots(accepted)
    }

    ghost function State(): Server
      requires Valid()
      reads this, accepted
    {
      Server(WorldNow(), nextEntity, IdsOf(sessions), SessionsNow(), pending, tickCount)
    }

    /** The step has touched the entity registry only. */
    twostate lemma OnlyWorldChanged()
      requires old(Valid()) && Valid()
      requires sessions == old(sessions) && accepted == old(accepted)
      requires pending == old(pending) && tickCount == old(tickCount)
      requires forall s | s in accepted :: s.Snapshot() == old(s.Snapshot())
      ensures State() == old(State()).(world := WorldNow(), nextEntity := nextEntity)
    {
      assert SessionsNow() == old(SessionsNow());
    }

    // ----- the erase-while-iterating loops -----

    /** Part-way through a sweep over the session list that started in `s0`: `kept` are the
        live sessions met so far, those of them in `to` have got `m`, and `rest` is still to be
        looked at. */
    ghost predicate Swept(s0: Server, kept: seq<SessionId>, rest: seq<SessionId>, to: set<SessionId>, m: Message)
      reads this`sessions, this`accepted, accepted
    {
      && ListGood() && IdsOf(sessions) == kept + rest && |accepted| == |s0.sessions|
      && kept + Prune(rest, s0.sessions) == Prune(s0.registry, s0.sessions)
      && (forall i | 0 <= i < |s0.sessions| ::
            accepted[i].Snapshot() ==
              if i in kept && i in to then s0.sessions[i].(sent := s0.sessions[i].sent + [m]) else s0.sessions[i])
    }

    lemma SweepStart(to: set<SessionId>, m: Message)
      requires Valid()
      ensures Swept(State(), [], IdsOf(sessions), to, m)
    {
      assert [] + Prune(IdsOf(sessions), SessionsNow()) == Prune(IdsOf(sessions), SessionsNow());
    }

    /** The session under the cursor is as it was when the sweep began. */
    lemma AtCursor(s0: Server, kept: seq<SessionId>, rest: seq<SessionId>, to: set<SessionId>, m: Message)
      requires Swept(s0, kept, rest, to, m) && rest != []
      ensures |kept| < |sessions|
      ensures var session := sessions[|kept|];
              && session.id == rest[0] < |s0.sessions| && accepted[rest[0]] == session && rest[0] !in kept
              && session.Snapshot() == s0.sessions[rest[0]]
              && (session.alive ==> rest[0] in Listening(s0))
    {
      var session := sessions[|kept|];
      assert (kept + rest)[|kept|] == rest[0];
      assert session in sessions;
      assert forall j | 0 <= j < |kept| :: (kept + rest)[j] == kept[j];
      if session.alive {
        assert rest[0] in Prune(rest, s0.sessions);
      }
    }

    /** A live session is kept and, if it is in `to`, gets `m`. */
    method Keep(write: bool, m: Message, k: nat,
                ghost s0: Server, ghost kept: seq<SessionId>, ghost rest: seq<SessionId>, ghost to: set<SessionId>)
      requires Swept(s0, kept, rest, to, m) && rest != [] && k == |kept| < |sessions| && sessions[k].alive
      requires write <==> sessions[k].id in to
      modifies accepted
      ensures unchanged(this) && Swept(s0, kept + [rest[0]], rest[1..], to, m)
    {
      AtCursor(s0, kept, rest, to, m);
      if write {
        sessions[k].Send(m);
      }
      assert kept + rest == (kept + [rest[0]]) + rest[1..];
      assert kept + ([rest[0]] + Prune(rest[1..], s0.sessions)) == (kept + [rest[0]]) + Prune(rest[1..], s0.sessions);
    }

    /** An expired weak pointer is erased. */
    method Erase(k: nat, ghost m: Message,
                 ghost s0: Server, ghost kept: seq<SessionId>, ghost rest: seq<SessionId>, ghost to: set<SessionId>)
      requires Swept(s0, kept, rest, to, m) && rest != [] && k == |kept| < |sessions| && !sessions[k].alive
      modifies this`sessions
      ensures Swept(s0, kept, rest[1..], to, m)
    {
      AtCursor(s0, kept, rest, to, m);
      WithoutOne(kept, rest);
      sessions := sessions[..k] + sessions[k + 1..];
      assert IdsOf(sessions) == kept + rest[1..];
    }

    static lemma WithoutOne(kept: seq<SessionId>, rest: seq<SessionId>)
      requires rest != [] && NoDuplicates(kept + rest)
      ensures NoDuplicates(kept + rest[1..])
    {
      var list, less := kept + rest, kept + rest[1..];
      assert forall j | 0 <= j < |less| :: less[j] == list[if j < |kept| then j else j + 1];
    }

    /** One turn of an erase-while-iterating loop: lock the weak pointer; write and go on, or
        erase. */
    method Visit(k: nat, write: bool, m: Message,
                 ghost s0: Server, ghost kept: seq<SessionId>, ghost rest: seq<SessionId>, ghost to: set<SessionId>)
      returns (next: nat, ghost kept': seq<SessionId>)
      requires Swept(s0, kept, rest, to, m) && k == |kept| < |sessions|
      requires PoolsAgree() && (sessions[k].alive ==> (write <==> sessions[k].id in to))
      modifies this`sessions, accepted
      ensures PoolsAgree() && WorldNow() == old(WorldNow())
      ensures accepted == old(accepted) && rest != [] && next == |kept'|
      ensures Swept(s0, kept', rest[1..], to, m)
    {
      assert |sessions| == |kept| + |rest|;
      if sessions[k].alive {
        Keep(write, m, k, s0, kept, rest, to);
        next, kept' := k + 1, kept + [rest[0]];
      } else {
        Erase(k, m, s0, kept, rest, to);
        next, kept' := k, kept;
      }
    }

    /** At the end of a sweep the list is pruned and exactly the listeners in `to` have got the
        message. */
    lemma SweepDone(s0: Server, kept: seq<SessionId>, to: set<SessionId>, m: Message)
      requires PoolsAgree() && Swept(s0, kept, [], to, m) && to <= Listening(s0)
      requires WorldNow() == s0.world && nextEntity == s0.nextEntity && pending == s0.pending && tickCount == s0.ticks
      ensures Valid()
      ensures State() == s0.(registry := Prune(s0.registry, s0.sessions), sessions := Deliver(s0.sessions, to, [m]))
    {
      assert kept + [] == kept;
      assert SessionsNow() == Deliver(s0.sessions, to, [m]);
    }

    method AllLoop(m: Message, ghost s0: Server) returns (ghost kept: seq<SessionId>)
      requires PoolsAgree() && WorldNow() == s0.world && Swept(s0, [], IdsOf(sessions), Listening(s0), m)
      modifies this`sessions, accepted
      ensures accepted == old(accepted) && PoolsAgree() && WorldNow() == s0.world &&
              Swept(s0, kept, [], Listening(s0), m)
    {
      ghost var rest := IdsOf(sessions);
      kept := [];
      var k: nat := 0;
      while k < |sessions|
        invariant PoolsAgree() && WorldNow() == s0.world
        invariant accepted == old(accepted) && Swept(s0, kept, rest, Listening(s0), m) && k == |kept|
        decreases |rest|
      {
        AtCursor(s0, kept, rest, Listening(s0), m);
        k, kept := Visit(k, true, m, s0, kept, rest, Listening(s0));
        rest := rest[1..];
      }
    }

    /** broadcast_player_leave, and the inner loop of broadcast_player_states. */
    method BroadcastToAll(m: Message)
      requires Valid()
      modifies this`sessions, accepted
      ensures Valid() && accepted == old(accepted)
      ensures State() == Broadcast(old(State()), [m])
    {
      ghost var s0 := State();
      SweepStart(Listening(s0), m);
      ghost var kept := AllLoop(m, s0);
      SweepDone(s0, kept, Listening(s0), m);
    }

    // ----- the tick -----

    method SaveCharacter(characterId: nat, x: real, y: real, z: real, failed: bool)
      modifies db`tables
      ensures db.tables == if failed then old(db.tables) else SavePosition(old(db.tables), characterId, x, y, z)
    {
      if !failed {
        db.tables := SavePosition(db.tables, characterId, x, y, z);
      }
    }

    /** Where the next tick takes an entity that stands at `p`. */
    ghost function Next(e: EntityId, p: Position): Position
      requires e in players && e in inputs
      reads this`players, this`inputs
    {
      Moved(Entity(players[e], p, inputs[e])).position
    }

    /** The body of simulate_movement's loop. */
    method SimulateOne(e: EntityId)
      requires e in players && e in positions && e in inputs
      modifies this`positions
      ensures positions == old(positions)[e := Next(e, old(positions)[e])]
    {
      var input, pos := inputs[e], positions[e];
      var moved := ApplyMoveFlags(Vec2(pos.x, pos.z), input.moveFlags, SERVER_STEP, input.yaw);
      positions := positions[e := Position(moved.x, pos.y, moved.z, input.yaw)];
    }

    /** The loop of simulate_movement: every entity once, in the view's order. */
    method SimulateEach(order: seq<EntityId>)
      requires PoolsAgree() && NoDuplicates(order) && forall j | 0 <= j < |order| :: order[j] in valid
      modifies this`positions
      ensures PoolsAgree()
      ensures forall j | 0 <= j < |order| :: positions[order[j]] == Next(order[j], old(positions)[order[j]])
    {
      ghost var start := positions;
      for n := 0 to |order|
        invariant positions.Keys == valid
        invariant forall j | 0 <= j < n :: positions[order[j]] == Next(order[j], start[order[j]])
        invariant forall j | n <= j < |order| :: positions[order[j]] == start[order[j]]
      {
        SimulateOne(order[n]);
      }
    }

    twostate lemma AllMoved(order: seq<EntityId>)
      requires old(PoolsAgree()) && PoolsAgree() && valid == old(valid) && players == old(players) &&
               inputs == old(inputs)
      requires Enumerates(order, old(WorldNow()))
      requires forall j | 0 <= j < |order| ::
                 order[j] in valid && positions[order[j]] == Next(order[j], old(positions)[order[j]])
      ensures WorldNow() == Simulate(old(WorldNow()))
    {
      var before := old(WorldNow());
      forall e | e in valid
        ensures WorldNow()[e] == Moved(before[e])
      {
        assert e in order;
        assert before[e] == Entity(players[e], old(positions)[e], inputs[e]);
      }
    }

    /** simulate_movement. */
    method SimulateMovement(order: seq<EntityId>)
      requires Valid() && Enumerates(order, WorldNow())
      modifies this`positions
      ensures Valid() && State() == old(State()).(world := Simulate(old(WorldNow())))
      ensures forall e | e in valid :: TickMoves(old(WorldNow())[e], WorldNow()[e])
    {
      forall j | 0 <= j < |order|
        ensures order[j] in valid
      {
        assert order[j] in order;
      }
      SimulateEach(order);
      AllMoved(order);
      OnlyWorldChanged();
      forall e | e in valid
        ensures TickMoves(old(WorldNow())[e], WorldNow()[e])
      {
        MovedInCoordinates(old(WorldNow())[e]);
      }
    }

    /** broadcast_player_states: one sweep of the session list per entity. */
    method BroadcastPlayerStates(order: seq<EntityId>)
      requires Valid() && forall e | e in order :: e in valid
      modifies this`sessions, accepted
      ensures Valid() && accepted == old(accepted)
      ensures State() == BroadcastStates(old(State()), order)
    {
      ghost var s0 := State();
      var n := 0;
      assert order[..0] == [];
      while n < |order|
        invariant 0 <= n <= |order| && Valid() && accepted == old(accepted)
        invariant State() == BroadcastStates(s0, order[..n])
      {
        var e := order[n];
        assert e in valid;
        BroadcastOneMore(s0, order, n);
        BroadcastToAll(PlayerState(players[e].characterId, positions[e]));
        n := n + 1;
      }
      assert order[..n] == order;
    }

    /** The autosave pass of update_game_world. */
    method SaveEveryone(order: seq<EntityId>, failed: set<EntityId>)
      requires PoolsAgree() && forall e | e in order :: e in valid
      modifies db`tables
      ensures db.tables == SaveAll(old(db.tables), WorldNow(), order, failed)
    {
      ghost var t0, world := db.tables, WorldNow();
      var n := 0;
      while n < |order|
        invariant 0 <= n <= |order|
        invariant db.tables == SaveAll(t0, world, order[..n], failed)
      {
        var e := order[n];
        assert e in valid && world[e] == Entity(players[e], positions[e], inputs[e]);
        assert order[..n + 1][..n] == order[..n];
        SaveCharacter(players[e].characterId, positions[e].x, positions[e].y, positions[e].z, e in failed);
        n := n + 1;
      }
      assert order[..n] == order;
    }

    /** The part of update_game_world that runs on every tick. */
    method MoveAndTell(order: seq<EntityId>)
      requires Valid() && Enumerates(order, WorldNow())
      modifies this`positions, this`sessions, accepted
      ensures Valid() && accepted == old(accepted) && WorldNow() == Simulate(old(WorldNow()))
      ensures State() == BroadcastStates(old(State()).(world := Simulate(old(WorldNow()))), order)
    {
      SimulateMovement(order);
      BroadcastPlayerStates(order);
    }

    /** update_game_world. */
    method UpdateGameWorld(currentTick: nat, order: seq<EntityId>, failed: set<EntityId>)
      requires Valid() && Enumerates(order, WorldNow()) && currentTick + 1 == tickCount
      modifies this`positions, this`sessions, accepted, db`tables
      ensures Valid() && accepted == old(accepted)
      ensures State() == BroadcastStates(old(State()).(world := Simulate(old(WorldNow()))), order)
      ensures db.tables == if IsAutosaveTick(currentTick)
                           then SaveAll(old(db.tables), Simulate(old(WorldNow())), order, failed)
                           else old(db.tables)
    {
      MoveAndTell(order);
      if currentTick != 0 && currentTick % AUTOSAVE_INTERVAL_TICKS == 0 {
        SaveEveryone(order, failed);
      }
    }

    /** game_loop_tick. */
    method GameLoopTick(order: seq<EntityId>, failed: set<EntityId>)
      requires Valid() && Enumerates(order, WorldNow())
      modifies this`positions, this`sessions, this`tickCount, accepted, db`tables
      ensures Valid() && accepted == old(accepted)
      ensures (State(), db.tables) == Tick(old(State()), old(db.tables), order, failed)
    {
      var currentTick := tickCount;
      tickCount := tickCount + 1;
      UpdateGameWorld(currentTick, order, failed);
    }

    // ----- one session's packets -----

    /** Only `session` has changed. */
    twostate lemma OneChanged(session: PlayerSession)
      requires session in accepted && accepted == old(accepted) && old(ListGood())
      requires forall t | t in accepted && t != session :: t.Snapshot() == old(t.Snapshot())
      ensures session.id < |accepted|
      ensures SessionsNow() == old(SessionsNow())[session.id := session.Snapshot()]
    {
      forall i | 0 <= i < |accepted|
        ensures SessionsNow()[i] == old(SessionsNow())[session.id := session.Snapshot()][i]
      {
        assert accepted[i] in accepted;
      }
    }

    method SendTo(session: PlayerSession, m: Message)
      requires Valid() && session in accepted
      modifies session`sent
      ensures Valid() && State() == World.SendTo(old(State()), session.id, m)
    {
      session.Send(m);
      OneChanged(session);
    }

    method Close(session: PlayerSession)
      requires Valid() && session in accepted
      modifies session`open
      ensures Valid() && State() == World.Close(old(State()), session.id)
    {
      session.open := false;
      OneChanged(session);
    }

    /** The transaction of handle_auth, statement by statement on a working copy of the tables
        that is written back only by the commit. */
    method AuthTransaction(token: Text, env: AuthEnv) returns (a: Admission)
      modifies db`tables
      ensures a == Admit(old(db.tables), token, env)
      ensures db.tables == if a.Admitted? then a.tables else old(db.tables)
    {
      var txn := db.tables;
      if env.fault == AtSession {
        return Refused;
      }
      if token !in txn.sessions || txn.sessions[token].expiresAt <= env.now ||
         txn.sessions[token].accountId !in txn.accounts {
        return Refused;
      }
      var accountId := txn.sessions[token].accountId;
      var username := txn.accounts[accountId].username;
      if env.fault == AtDelete {
        return Refused;
      }
      txn := txn.(sessions := txn.sessions - {token});
      if env.fault == AtCharacter {
        return Refused;
      }
      var found := LeastKey(CharactersOf(txn, accountId));
      var characterId: nat;
      if found.None? {
        if env.fault == AtInsert || env.serial in txn.characters || NameTaken(txn, username) {
          return Refused;
        }
        characterId := env.serial;
        txn := txn.(characters := txn.characters[characterId := CharacterRow(accountId, username, 0.0, 0.0, 0.0)]);
      } else {
        characterId := found.value;
      }
      var row := txn.characters[characterId];
      if env.fault == AtCommit {
        return Refused;
      }
      db.tables := txn;
      a := Admitted(accountId, username, characterId, row.x, row.y, row.z, txn);
    }

    /** world.create and the three emplace calls. */
    method CreateEntity(data: PlayerData, position: Position, input: PlayerInput) returns (e: EntityId)
      requires PoolsAgree()
      modifies this`valid, this`players, this`positions, this`inputs, this`nextEntity
      ensures PoolsAgree() && e == old(nextEntity) && nextEntity == e + 1
      ensures WorldNow() == old(WorldNow())[e := Entity(data, position, input)]
    {
      e := nextEntity;
      nextEntity := nextEntity + 1;
      valid := valid + {e};
      players := players[e := data];
      positions := positions[e := position];
      inputs := inputs[e := input];
    }

    method Spawn(data: PlayerData, position: Position, input: PlayerInput) returns (e: EntityId)
      requires Valid()
      modifies this`valid, this`players, this`positions, this`inputs, this`nextEntity
      ensures Valid() && e == old(nextEntity)
      ensures State() == old(State()).(world := old(WorldNow())[e := Entity(data, position, input)],
                                       nextEntity := e + 1)
    {
      e := CreateEntity(data, position, input);
      OnlyWorldChanged();
    }

    /** The session's side of entering: it owns the entity, is listed, and says so. */
    method Join(session: PlayerSession, e: EntityId, characterId: nat)
      requires Valid() && session in accepted && session !in sessions
      modifies this`sessions, session
      ensures Valid() && session.id < |accepted|
      ensures State() == old(State()).(registry := old(State()).registry + [session.id],
                sessions := old(SessionsNow())[session.id :=
                  old(session.Snapshot()).(phase := Authenticated, hasEntity := true, entityId := e,
                                           sent := old(session.sent) + [AuthOk(characterId)])])
    {
      session.phase := Authenticated;
      session.entityId := e;
      session.hasEntity := true;
      NotListed(session);
      sessions := sessions + [session];
      assert IdsOf(sessions) == old(IdsOf(sessions)) + [session.id];
      session.Send(AuthOk(characterId));
      OneChanged(session);
    }

    lemma NotListed(session: PlayerSession)
      requires ListGood() && session in accepted && session !in sessions
      ensures session.id !in IdsOf(sessions)
    {
      forall k | 0 <= k < |sessions|
        ensures sessions[k].id != session.id
      {
        assert sessions[k] in sessions;
      }
    }

    /** The part of handle_auth after a successful commit. */
    method EnterWorld(session: PlayerSession, a: Admission)
      requires Valid() && session in accepted && session !in sessions && a.Admitted?
      modifies this`valid, this`players, this`positions, this`inputs, this`nextEntity, this`sessions, session
      ensures Valid() && accepted == old(accepted)
      ensures State() == Enter(old(State()), session.id, a)
    {
      assert accepted[session.id] == session;
      var e := Spawn(PlayerData(a.username, a.characterId), Position(a.x, a.y, a.z, ZERO_ANGLE),
        PlayerInput(0, ZERO_ANGLE));
      Join(session, e, a.characterId);
    }

    method HandleAuth(session: PlayerSession, token: Text, env: AuthEnv)
      requires Valid() && session in accepted && session !in sessions
      modifies this`valid, this`players, this`positions, this`inputs, this`nextEntity, this`sessions, session, db`tables
      ensures Valid() && accepted == old(accepted)
      ensures (State(), db.tables) == World.HandleAuth(old(State()), old(db.tables), session.id, token, env)
    {
      var a := AuthTransaction(token, env);
      if a.Refused? {
        SendTo(session, AuthFail);
      } else {
        EnterWorld(session, a);
      }
    }

    /** The CMSG_PLAYER_MOVE case: intent is recorded, nothing moves. */
    method HandleMove(session: PlayerSession, flags: byte, yaw: Angle)
      requires Valid() && session in accepted
      modifies this`inputs
      ensures Valid() && State() == World.HandleMove(old(State()), session.id, flags, yaw)
    {
      assert accepted[session.id] == session;
      if session.hasEntity && session.entityId in valid {
        var e := session.entityId;
        inputs := inputs[e := PlayerInput(flags, yaw)];
        assert WorldNow() == old(WorldNow())[e := old(WorldNow())[e].(input := PlayerInput(flags, yaw))];
      }
    }

    /** getUsername. */
    method GetUsername(session: PlayerSession) returns (name: Option<Text>)
      requires PoolsAgree()
      ensures name == if session.hasEntity && session.entityId in valid then Some(players[session.entityId].name)
                      else None
    {
      name := if session.hasEntity && session.entityId in valid then Some(players[session.entityId].name) else None;
    }

    /** getPosition, on the ground plane. */
    method GetPosition(session: PlayerSession) returns (p: Option<Vec2>)
      requires PoolsAgree()
      ensures p == if session.hasEntity && session.entityId in valid
                   then Some(Vec2(positions[session.entityId].x, positions[session.entityId].z)) else None
    {
      p := if session.hasEntity && session.entityId in valid
      then Some(Vec2(positions[session.entityId].x, positions[session.entityId].z)) else None;
    }

    /** The name test of the whisper loop. */
    method IsNamed(session: PlayerSession, target: Text, ghost s0: Server, ghost x: real, ghost z: real)
      returns (named: bool)
      requires PoolsAgree() && WorldNow() == s0.world && session.id < |s0.sessions|
      requires session.Snapshot() == s0.sessions[session.id] && (session.alive ==> session.id in Listening(s0))
      ensures session.alive ==> (named <==> session.id in Hearers(s0, Channel.Whisper, x, z, target))
    {
      var name := GetUsername(session);
      named := name == Some(target);
    }

    /** One turn of the whisper loop: does the session carry the name? */
    method WhisperTurn(k: nat, target: Text, ghost x: real, ghost z: real, m: Message,
                 ghost s0: Server, ghost kept: seq<SessionId>, ghost rest: seq<SessionId>, ghost to: set<SessionId>)
      returns (next: nat, ghost kept': seq<SessionId>)
      requires PoolsAgree() && WorldNow() == s0.world && k == |kept| < |sessions|
      requires to == Hearers(s0, Channel.Whisper, x, z, target)
      requires Swept(s0, kept, rest, to, m)
      modifies this`sessions, accepted
      ensures PoolsAgree() && WorldNow() == s0.world
      ensures accepted == old(accepted) && rest != [] && next == |kept'|
      ensures Swept(s0, kept', rest[1..], to, m)
    {
      assert |sessions| == |kept| + |rest|;
      AtCursor(s0, kept, rest, to, m);
      var named := IsNamed(sessions[k], target, s0, x, z);
      next, kept' := Visit(k, named, m, s0, kept, rest, to);
    }

    method WhisperLoop(m: Message, target: Text, ghost s0: Server, ghost x: real, ghost z: real,
                       ghost to: set<SessionId>)
      returns (ghost kept: seq<SessionId>)
      requires PoolsAgree() && WorldNow() == s0.world && to == Hearers(s0, Channel.Whisper, x, z, target)
      requires Swept(s0, [], IdsOf(sessions), to, m)
      modifies this`sessions, accepted
      ensures accepted == old(accepted) && PoolsAgree() && WorldNow() == s0.world && Swept(s0, kept, [], to, m)
    {
      ghost var rest := IdsOf(sessions);
      kept := [];
      var k: nat := 0;
      while k < |sessions|
        invariant PoolsAgree() && WorldNow() == s0.world
        invariant accepted == old(accepted) && Swept(s0, kept, rest, to, m) && k == |kept|
        decreases |rest|
      {
        k, kept := WhisperTurn(k, target, x, z, m, s0, kept, rest, to);
        rest := rest[1..];
      }
    }

    method Whisper(sender: Text, x: real, z: real, target: Text, text: Text)
      requires Valid()
      modifies this`sessions, accepted
      ensures Valid() && accepted == old(accepted)
      ensures State() == World.BroadcastChat(old(State()), Channel.Whisper, sender, x, z, target, text)
    {
      ghost var s0 := State();
      ghost var to := Hearers(s0, Channel.Whisper, x, z, target);
      var m := Chat(Channel.Whisper, sender, text);
      SweepStart(to, m);
      ghost var kept := WhisperLoop(m, target, s0, x, z, to);
      SweepDone(s0, kept, to, m);
    }

    /** Session `i` of `s0` is in the world no farther than `range` from (x, z). */
    static predicate Near(s0: Server, i: SessionId, x: real, z: real, range: real) {
      InWorld(s0, i) &&
      DistSq(Vec2(x, z), Vec2(EntityOf(s0, i).position.x, EntityOf(s0, i).position.z)) <= range * range
    }

    /** The distance test of the say/yell loop. */
    method IsNear(session: PlayerSession, x: real, z: real, range: real, ghost s0: Server) returns (near: bool)
      requires PoolsAgree() && WorldNow() == s0.world
      requires session.id < |s0.sessions| && session.Snapshot() == s0.sessions[session.id]
      ensures near <==> Near(s0, session.id, x, z, range)
    {
      var p := GetPosition(session);
      near := p.Some? && DistSq(Vec2(x, z), p.value) <= range * range;
    }

    /** One turn of the say/yell loop: is the session in range? */
    method RangeTurn(k: nat, x: real, z: real, range: real, m: Message,
                 ghost s0: Server, ghost kept: seq<SessionId>, ghost rest: seq<SessionId>, ghost to: set<SessionId>)
      returns (next: nat, ghost kept': seq<SessionId>)
      requires PoolsAgree() && WorldNow() == s0.world && k == |kept| < |sessions|
      requires forall i | i in Listening(s0) :: i in to <==> Near(s0, i, x, z, range)
      requires Swept(s0, kept, rest, to, m)
      modifies this`sessions, accepted
      ensures PoolsAgree() && WorldNow() == s0.world
      ensures accepted == old(accepted) && rest != [] && next == |kept'|
      ensures Swept(s0, kept', rest[1..], to, m)
    {
      assert |sessions| == |kept| + |rest|;
      AtCursor(s0, kept, rest, to, m);
      var near := IsNear(sessions[k], x, z, range, s0);
      next, kept' := Visit(k, near, m, s0, kept, rest, to);
    }

    method RangeLoop(m: Message, x: real, z: real, range: real, ghost s0: Server, ghost to: set<SessionId>)
      returns (ghost kept: seq<SessionId>)
      requires PoolsAgree() && WorldNow() == s0.world
      requires forall i | i in Listening(s0) :: i in to <==> Near(s0, i, x, z, range)
      requires Swept(s0, [], IdsOf(sessions), to, m)
      modifies this`sessions, accepted
      ensures accepted == old(accepted) && PoolsAgree() && WorldNow() == s0.world && Swept(s0, kept, [], to, m)
    {
      ghost var rest := IdsOf(sessions);
      kept := [];
      var k: nat := 0;
      while k < |sessions|
        invariant PoolsAgree() && WorldNow() == s0.world
        invariant accepted == old(accepted) && Swept(s0, kept, rest, to, m) && k == |kept|
        decreases |rest|
      {
        k, kept := RangeTurn(k, x, z, range, m, s0, kept, rest, to);
        rest := rest[1..];
      }
    }

    /** One message to everybody within `range`. */
    method TellNear(m: Message, x: real, z: real, range: real, ghost to: set<SessionId>)
      requires Valid() && to <= Listening(State())
      requires forall i | i in Listening(State()) :: i in to <==> Near(State(), i, x, z, range)
      modifies this`sessions, accepted
      ensures Valid() && accepted == old(accepted)
      ensures State() == old(State()).(registry := Prune(old(State()).registry, old(State()).sessions),
                                       sessions := Deliver(old(State()).sessions, to, [m]))
    {
      ghost var s0 := State();
      SweepStart(to, m);
      ghost var kept := RangeLoop(m, x, z, range, s0, to);
      SweepDone(s0, kept, to, m);
    }

    static lemma HearersAreNear(s0: Server, channel: Channel, x: real, z: real, target: Text)
      requires channel.Say? || channel.Yell?
      ensures var to := Hearers(s0, channel, x, z, target);
              to <= Listening(s0) && forall i | i in Listening(s0) :: i in to <==> Near(s0, i, x, z, RangeOf(channel))
    {
      assert RangeOf(channel) * RangeOf(channel) == RangeSquared(channel);
    }

    method SayOrYell(channel: Channel, sender: Text, x: real, z: real, target: Text, text: Text)
      requires Valid() && (channel.Say? || channel.Yell?)
      modifies this`sessions, accepted
      ensures Valid() && accepted == old(accepted)
      ensures State() == World.BroadcastChat(old(State()), channel, sender, x, z, target, text)
    {
      var range := if channel.Say? then SAY_RANGE else YELL_RANGE;
      HearersAreNear(State(), channel, x, z, target);
      TellNear(Chat(channel, sender, text), x, z, range, Hearers(State(), channel, x, z, target));
    }

    /** broadcast_chat. */
    method BroadcastChat(channel: Channel, sender: Text, x: real, z: real, target: Text, text: Text)
      requires Valid()
      modifies this`sessions, accepted
      ensures Valid() && accepted == old(accepted)
      ensures State() == World.BroadcastChat(old(State()), channel, sender, x, z, target, text)
    {
      match channel
      case Whisper => Whisper(sender, x, z, target, text);
      case Say | Yell => SayOrYell(channel, sender, x, z, target, text);
      case _ =>
    }

    method HandleChat(session: PlayerSession, channel: Channel, target: Text, text: Text)
      requires Valid() && session in accepted
      modifies this`sessions, accepted
      ensures Valid() && accepted == old(accepted)
      ensures State() == World.HandleChat(old(State()), session.id, channel, target, text)
    {
      assert accepted[session.id] == session;
      if session.hasEntity && session.entityId in valid {
        var e := session.entityId;
        BroadcastChat(channel, players[e].name, positions[e].x, positions[e].z, target, text);
      }
    }

    /** process_packet for a session that is in the world. */
    method Dispatch(session: PlayerSession, request: Request)
      requires Valid() && session in accepted
      modifies this`inputs, this`sessions, accepted
      ensures Valid() && accepted == old(accepted)
      ensures State() == World.Dispatch(old(State()), session.id, request)
    {
      assert accepted[session.id] == session;
      match request
      case Ping => SendTo(session, Pong);
      case Move(flags, yaw) => HandleMove(session, flags, yaw);
      case ChatSay(channel, target, text) => HandleChat(session, channel, target, text);
      case _ =>
    }

    /** process_packet for a session that has not authenticated. */
    method FirstPacket(session: PlayerSession, request: Request, env: AuthEnv)
      requires Valid() && session in accepted && session !in sessions
      modifies this`valid, this`players, this`positions, this`inputs, this`nextEntity, this`sessions, session, db`tables
      ensures Valid() && accepted == old(accepted)
      ensures (State(), db.tables) == World.FirstPacket(old(State()), old(db.tables), session.id, request, env)
    {
      assert accepted[session.id] == session;
      match request
      case GameAuth(token) => HandleAuth(session, token, env);
      case _ => Close(session);
    }

    /** process_packet.  That a waiting session is not listed yet is part of the ownership
        invariant; module Strand discharges it for every handler it runs. */
    method ProcessPacket(session: PlayerSession, request: Request, env: AuthEnv)
      requires Valid() && session in accepted
      requires session.phase == WaitingForAuth ==> session !in sessions
      modifies this, accepted, db`tables
      ensures Valid() && accepted == old(accepted)
      ensures (State(), db.tables) == World.ProcessPacket(old(State()), old(db.tables), session.id, request, env)
    {
      assert accepted[session.id] == session;
      if session.phase == WaitingForAuth {
        FirstPacket(session, request, env);
      } else {
        Dispatch(session, request);
      }
    }

    // ----- lifetimes -----

    /** A connection is accepted and its session starts reading. */
    method Accept() returns (session: PlayerSession)
      requires Valid()
      modifies this`accepted
      ensures Valid() && fresh(session) && accepted == old(accepted) + [session]
      ensures State() == World.Accept(old(State()))
    {
      session := new PlayerSession(|accepted|);
      accepted := accepted + [session];
    }

    /** ~PlayerSession, run when the last reference goes. */
    method Drop(session: PlayerSession)
      requires Valid() && session in accepted
      modifies session`alive, this`pending
      ensures Valid() && State() == World.Drop(old(State()), session.id)
    {
      assert accepted[session.id] == session;
      session.alive := false;
      if session.hasEntity {
        pending := pending + [session.entityId];
      }
      OneChanged(session);
    }

    /** world.destroy. */
    method DestroyEntity(id: EntityId)
      requires PoolsAgree()
      modifies this`valid, this`players, this`positions, this`inputs
      ensures PoolsAgree() && WorldNow() == old(WorldNow()) - {id}
    {
      valid, players, positions, inputs := valid - {id}, players - {id}, positions - {id}, inputs - {id};
    }

    /** The destruction proper: save, destroy, announce. */
    method Remove(id: EntityId, failed: bool)
      requires Valid() && id in valid
      modifies this`valid, this`players, this`positions, this`inputs, this`sessions, accepted, db`tables
      ensures Valid() && accepted == old(accepted)
      ensures State() == Broadcast(old(State()).(world := old(WorldNow()) - {id}),
                                   [PlayerLeave(old(WorldNow())[id].data.characterId)])
      ensures db.tables == if failed then old(db.tables) else Save(old(db.tables), old(WorldNow())[id])
    {
      ghost var e := WorldNow()[id];
      var data, pos := players[id], positions[id];
      assert e.data == data && e.position == pos;
      SaveCharacter(data.characterId, pos.x, pos.y, pos.z, failed);
      DestroyEntity(id);
      OnlyWorldChanged();
      BroadcastToAll(PlayerLeave(data.characterId));
    }

    /** A posted destruction runs on the strand. */
    method RunDestroy(k: nat, failed: bool)
      requires Valid() && k < |pending|
      modifies this`valid, this`players, this`positions, this`inputs, this`pending, this`sessions, accepted, db`tables
      ensures Valid() && accepted == old(accepted)
      ensures (State(), db.tables) == World.RunDestroy(old(State()), old(db.tables), k, failed)
    {
      var id := pending[k];
      pending := pending[..k] + pending[k + 1..];
      if id in valid {
        Remove(id, failed);
      }
    }
  }

  lemma {:induction false} PruneTwice(registry: seq<SessionId>, ss: seq<Session>, ss': seq<Session>)
    requires forall i | i in registry :: Alive(ss', i) <==> Alive(ss, i)
    ensures Prune(Prune(registry, ss), ss') == Prune(registry, ss)
  {
    if registry != [] {
      PruneTwice(registry[1..], ss, ss');
      var rest := Prune(registry[1..], ss);
      if Alive(ss, registry[0]) {
        assert ([registry[0]] + rest)[1..] == rest;
      }
    }
  }

  lemma BroadcastAgain(s: Server, a: seq<Message>, m: Message)
    ensures Broadcast(Broadcast(s, a), [m]) == Broadcast(s, a + [m])
  {
    var s1 := Broadcast(s, a);
    PruneTwice(s.registry, s.sessions, s1.sessions);
    assert Listening(s1) == Listening(s);
    assert Deliver(s1.sessions, Listening(s), [m]) == Deliver(s.sessions, Listening(s), a + [m]) by {
      forall i | 0 <= i < |s.sessions|
        ensures Deliver(s1.sessions, Listening(s), [m])[i] == Deliver(s.sessions, Listening(s), a + [m])[i]
      {
        assert (s.sessions[i].sent + a) + [m] == s.sessions[i].sent + (a + [m]);
      }
    }
  }

  lemma BroadcastOneMore(s: Server, order: seq<EntityId>, n: nat)
    requires n < |order| && forall e | e in order :: e in s.world
    ensures Broadcast(BroadcastStates(s, order[..n]), [StateOf(s.world[order[n]])]) ==
            BroadcastStates(s, order[..n + 1])
  {
    var m := StateOf(s.world[order[n]]);
    assert StateMessages(s.world, order[..n + 1]) == StateMessages(s.world, order[..n]) + [m];
    if n == 0 {
      assert StateMessages(s.world, order[..1]) == [m];
    } else {
      BroadcastAgain(s, StateMessages(s.world, order[..n]), m);
    }
  }
}
