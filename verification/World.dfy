/** The authoritative game server as a value: what each strand step does to the world, the
    session list, the outgoing streams and the tables. */
module World {
  import opened Protocol
  import opened Movement
  import opened Database

  type EntityId = nat
  type SessionId = nat

  datatype PlayerData = PlayerData(name: Text, characterId: nat)
  datatype PlayerInput = PlayerInput(moveFlags: byte, yaw: Angle)
  datatype Entity = Entity(data: PlayerData, position: Position, input: PlayerInput)

  datatype Phase = WaitingForAuth | Authenticated | Disconnected

  /** A connection.  `alive` says some shared_ptr to it remains; `open` that the dispatcher has not
      hung up on it (the close that follows a written AUTH_FAIL is not recorded: it ends the reading
      and so, at some time, the session); `sent` is every message handed to its socket so far. */
  datatype Session = Session(phase: Phase, hasEntity: bool, entityId: EntityId,
                             alive: bool, open: bool, sent: seq<Message>)

  /** `sessions` holds every connection ever accepted, `registry` the weak pointers of
      authenticated ones, `pending` the entity destructions posted but not yet run. */
  datatype Server = Server(world: map<EntityId, Entity>, nextEntity: EntityId,
                           registry: seq<SessionId>, sessions: seq<Session>,
                           pending: seq<EntityId>, ticks: nat)

  const AUTOSAVE_INTERVAL_TICKS := 600
  const SAY_RANGE := 15.0
  const YELL_RANGE := 60.0

  const EMPTY := Server(map[], 0, [], [], [], 0)
  const NEW_SESSION := Session(WaitingForAuth, false, 0, true, true, [])

  // ----- session list and delivery -----

  predicate Alive(ss: seq<Session>, i: SessionId) {
    i < |ss| && ss[i].alive
  }

  /** The list with expired weak pointers erased. */
  function Prune(registry: seq<SessionId>, ss: seq<Session>): (r: seq<SessionId>)
    ensures forall i :: i in r <==> i in registry && Alive(ss, i)
  {
    if registry == [] then []
    else if Alive(ss, registry[0]) then [registry[0]] + Prune(registry[1..], ss)
    else Prune(registry[1..], ss)
  }

  /** Appends `msgs` to the stream of every session in `to`. */
  function Deliver(ss: seq<Session>, to: set<SessionId>, msgs: seq<Message>): (r: seq<Session>)
    ensures |r| == |ss|
    ensures forall i | 0 <= i < |ss| :: r[i] == if i in to then ss[i].(sent := ss[i].sent + msgs) else ss[i]
  {
    seq(|ss|, i requires 0 <= i < |ss| => if i in to then ss[i].(sent := ss[i].sent + msgs) else ss[i])
  }

  function Listening(s: Server): set<SessionId> {
    set i | i in s.registry && Alive(s.sessions, i)
  }

  /** A broadcast: every live registered session gets `msgs`, the dead ones are pruned. */
  function Broadcast(s: Server, msgs: seq<Message>): Server {
    s.(registry := Prune(s.registry, s.sessions), sessions := Deliver(s.sessions, Listening(s), msgs))
  }

  // ----- the tick -----

  function Moved(e: Entity): Entity {
    var p := ApplyMoveFlags(Vec2(e.position.x, e.position.z), e.input.moveFlags, SERVER_STEP, e.input.yaw);
    e.(position := Position(p.x, e.position.y, p.z, e.input.yaw))
  }

  /** One tick of 0.05 seconds at 1.28 units a second: the keys held add what they add at the heading
      held, which the entity turns to; height, data and input stay. */
  predicate TickMoves(before: Entity, after: Entity) {
    var p, q, input := before.position, after.position, before.input;
    && StepsTo(Vec2(p.x, p.z), Vec2(q.x, q.z), input.moveFlags, input.yaw, 1.28 * 0.05)
    && q.y == p.y && q.yaw == input.yaw && after.data == before.data && after.input == input
  }

  lemma MovedInCoordinates(e: Entity)
    ensures TickMoves(e, Moved(e))
  {
    StepInCoordinates(Vec2(e.position.x, e.position.z), e.input.moveFlags, SERVER_STEP, e.input.yaw);
  }

  function Simulate(world: map<EntityId, Entity>): map<EntityId, Entity> {
    map e | e in world :: Moved(world[e])
  }

  function StateOf(e: Entity): Message {
    PlayerState(e.data.characterId, e.position)
  }

  /** One STATE per entity, in the order the view enumerates them. */
  function StateMessages(world: map<EntityId, Entity>, order: seq<EntityId>): (r: seq<Message>)
    requires forall e | e in order :: e in world
    ensures |r| == |order|
    ensures forall k | 0 <= k < |order| :: r[k] == StateOf(world[order[k]])
  {
    seq(|order|, k requires 0 <= k < |order| => StateOf(world[order[k]]))
  }

  ghost predicate NoDuplicates<T(!new)>(s: seq<T>) {
    forall i, j | 0 <= i < j < |s| :: s[i] != s[j]
  }

  /** An order in which a view may visit every entity once. */
  ghost predicate Enumerates(order: seq<EntityId>, world: map<EntityId, Entity>) {
    NoDuplicates(order) && forall e :: e in order <==> e in world
  }

  predicate IsAutosaveTick(tick: nat) {
    tick != 0 && tick % AUTOSAVE_INTERVAL_TICKS == 0
  }

  function Save(t: Tables, e: Entity): Tables {
    SavePosition(t, e.data.characterId, e.position.x, e.position.y, e.position.z)
  }

  /** Saving the entities of `order` one after the other; those in `failed` hit a DB error. */
  function SaveAll(t: Tables, world: map<EntityId, Entity>, order: seq<EntityId>, failed: set<EntityId>): Tables
    requires forall e | e in order :: e in world
  {
    if order == [] then t
    else
      var rest, e := order[..|order| - 1], order[|order| - 1];
      var t' := SaveAll(t, world, rest, failed);
      if e in failed then t' else Save(t', world[e])
  }

  function BroadcastStates(s: Server, order: seq<EntityId>): Server
    requires forall e | e in order :: e in s.world
  {
    if order == [] then s else Broadcast(s, StateMessages(s.world, order))
  }

  function Tick(s: Server, t: Tables, order: seq<EntityId>, failed: set<EntityId>): (Server, Tables)
    requires forall e | e in order :: e in s.world
  {
    var s1 := s.(world := Simulate(s.world), ticks := s.ticks + 1);
    (BroadcastStates(s1, order), if IsAutosaveTick(s.ticks) then SaveAll(t, s1.world, order, failed) else t)
  }

  // ----- one session's packets -----

  function Update(s: Server, i: SessionId, session: Session): Server
    requires i < |s.sessions|
  {
    s.(sessions := s.sessions[i := session])
  }

  function SendTo(s: Server, i: SessionId, m: Message): Server
    requires i < |s.sessions|
  {
    Update(s, i, s.sessions[i].(sent := s.sessions[i].sent + [m]))
  }

  function Close(s: Server, i: SessionId): Server
    requires i < |s.sessions|
  {
    Update(s, i, s.sessions[i].(open := false))
  }

  /** The session owns an entity that is still in the registry. */
  predicate InWorld(s: Server, i: SessionId) {
    i < |s.sessions| && s.sessions[i].hasEntity && s.sessions[i].entityId in s.world
  }

  function EntityOf(s: Server, i: SessionId): Entity
    requires InWorld(s, i)
  {
    s.world[s.sessions[i].entityId]
  }

  function Enter(s: Server, i: SessionId, a: Admission): Server
    requires i < |s.sessions| && a.Admitted?
  {
    var e := s.nextEntity;
    var entity := Entity(PlayerData(a.username, a.characterId), Position(a.x, a.y, a.z, ZERO_ANGLE),
                         PlayerInput(0, ZERO_ANGLE));
    var session := s.sessions[i];
    s.(world := s.world[e := entity], nextEntity := e + 1, registry := s.registry + [i],
       sessions := s.sessions[i := session.(phase := Authenticated, hasEntity := true, entityId := e,
                                            sent := session.sent + [AuthOk(a.characterId)])])
  }

  function HandleAuth(s: Server, t: Tables, i: SessionId, token: Text, env: AuthEnv): (Server, Tables)
    requires i < |s.sessions|
  {
    var a := Admit(t, token, env);
    if a.Refused? then (SendTo(s, i, AuthFail), t) else (Enter(s, i, a), a.tables)
  }

  function HandleMove(s: Server, i: SessionId, flags: byte, yaw: Angle): Server {
    if InWorld(s, i) then
      var e := s.sessions[i].entityId;
      s.(world := s.world[e := s.world[e].(input := PlayerInput(flags, yaw))])
    else s
  }

  function RangeOf(channel: Channel): real {
    if channel == Say then SAY_RANGE else YELL_RANGE
  }

  function RangeSquared(channel: Channel): real {
    if channel == Say then SAY_RANGE * SAY_RANGE else YELL_RANGE * YELL_RANGE
  }

  /** Whether session `i` is addressed by a message from a speaker at (x, z). */
  predicate Hears(s: Server, i: SessionId, channel: Channel, x: real, z: real, target: Text) {
    InWorld(s, i) &&
    match channel
    case Whisper => EntityOf(s, i).data.name == target
    case Say | Yell =>
      var p := EntityOf(s, i).position;
      DistSq(Vec2(x, z), Vec2(p.x, p.z)) <= RangeSquared(channel)
    case _ => false
  }

  function Hearers(s: Server, channel: Channel, x: real, z: real, target: Text): set<SessionId> {
    set i | i in Listening(s) && Hears(s, i, channel, x, z, target)
  }

  function BroadcastChat(s: Server, channel: Channel, sender: Text, x: real, z: real, target: Text,
                         text: Text): Server {
    if channel.Guild? || channel.OtherChannel? then s
    else s.(registry := Prune(s.registry, s.sessions),
            sessions := Deliver(s.sessions, Hearers(s, channel, x, z, target), [Chat(channel, sender, text)]))
  }

  function HandleChat(s: Server, i: SessionId, channel: Channel, target: Text, text: Text): Server {
    if InWorld(s, i) then
      var e := EntityOf(s, i);
      BroadcastChat(s, channel, e.data.name, e.position.x, e.position.z, target, text)
    else s
  }

  /** A packet on a connection that has not authenticated. */
  function FirstPacket(s: Server, t: Tables, i: SessionId, request: Request, env: AuthEnv): (Server, Tables)
    requires i < |s.sessions|
  {
    match request
    case GameAuth(token) => HandleAuth(s, t, i, token, env)
    case _ => (Close(s, i), t)
  }

  /** A packet of a player. */
  function Dispatch(s: Server, i: SessionId, request: Request): Server
    requires i < |s.sessions|
  {
    match request
    case Ping => SendTo(s, i, Pong)
    case Move(flags, yaw) => HandleMove(s, i, flags, yaw)
    case ChatSay(channel, target, text) => HandleChat(s, i, channel, target, text)
    case _ => s
  }

  function ProcessPacket(s: Server, t: Tables, i: SessionId, request: Request, env: AuthEnv): (Server, Tables)
    requires i < |s.sessions|
  {
    if s.sessions[i].phase == WaitingForAuth then FirstPacket(s, t, i, request, env)
    else (Dispatch(s, i, request), t)
  }

  // ----- lifetimes -----

  function Accept(s: Server): Server {
    s.(sessions := s.sessions + [NEW_SESSION])
  }

  /** The last reference goes away: the destructor posts the entity's destruction. */
  function Drop(s: Server, i: SessionId): Server
    requires i < |s.sessions|
  {
    var session := s.sessions[i];
    Update(s, i, session.(alive := false))
      .(pending := if session.hasEntity then s.pending + [session.entityId] else s.pending)
  }

  /** The `k`-th posted destruction runs; `failed` says its save hits a DB error. */
  function RunDestroy(s: Server, t: Tables, k: nat, failed: bool): (Server, Tables)
    requires k < |s.pending|
  {
    var e := s.pending[k];
    var s1 := s.(pending := s.pending[..k] + s.pending[k + 1..]);
    if e !in s.world then (s1, t)
    else (Broadcast(s1.(world := s.world - {e}), [PlayerLeave(s.world[e].data.characterId)]),
          if failed then t else Save(t, s.world[e]))
  }
}
