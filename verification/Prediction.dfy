/** Prediction against authority on the two programs as they run: turns of the client's logic thread
    and ticks of the game server, with the same keys held. */
module Prediction {
  import opened Protocol
  import opened Movement
  import opened Wire
  import opened Database
  import opened Framing
  import opened Replica
  import opened LogicThread
  import World
  import G = GameServer

  // ----- the client -----

  /** The message does not touch the local player: no AUTH_OK, no STATE about it. */
  predicate Quiet(m: Message, self: nat) {
    !m.AuthOk? && !m.AuthOkTruncated? && !(m.PlayerState? && m.stateId == self)
  }

  predicate AllQuiet(ms: seq<Message>, self: nat) {
    forall k | 0 <= k < |ms| :: Quiet(ms[k], self)
  }

  lemma {:induction false} QuietFold(v: View, ms: seq<Message>)
    requires AllQuiet(ms, v.self)
    ensures var w := Fold(v, ms);
            w.local == v.local && w.self == v.self && w.inWorld == v.inWorld
  {
    if ms != [] {
      QuietFold(v, ms[..|ms| - 1]);
      assert Quiet(ms[|ms| - 1], v.self);
    }
  }

  lemma FlattenFrom(chunks: seq<Text>, n: nat) returns (rest: Text)
    requires n <= |chunks|
    ensures Flatten(chunks) == Flatten(chunks[..n]) + rest
    decreases |chunks|
  {
    rest := [];
    if n == |chunks| {
      assert chunks[..n] == chunks;
    } else {
      var front := chunks[..|chunks| - 1];
      var more := FlattenFrom(front, n);
      assert front[..n] == chunks[..n];
      rest := more + chunks[|chunks| - 1];
      assert Flatten(chunks[..n]) + more + chunks[|chunks| - 1] == Flatten(chunks[..n]) + rest;
    }
  }

  lemma PartIsQuiet(before: seq<Packet>, these: seq<Packet>, after: seq<Packet>, floats: Floats, self: nat)
    requires AllQuiet(MessagesOf(before + these + after, floats), self)
    ensures AllQuiet(MessagesOf(these, floats), self)
  {
    var all := before + these + after;
    forall k | 0 <= k < |these|
      ensures Quiet(MessagesOf(these, floats)[k], self)
    {
      assert all[|before| + k] == these[k];
      assert Quiet(MessagesOf(all, floats)[|before| + k], self);
    }
  }

  /** What a chunk completes is a stretch of what all the bytes make up. */
  lemma ChunkCompletes(bytes: Text, chunks: seq<Text>, n: nat) returns (before: seq<Packet>, after: seq<Packet>)
    requires n < |chunks|
    ensures var left := Leftover(ClientReader, bytes + Flatten(chunks[..n]));
            && Frames(ClientReader, bytes + Flatten(chunks)) ==
               before + Frames(ClientReader, left + chunks[n]) + after
            && Leftover(ClientReader, bytes + Flatten(chunks[..n + 1])) == Leftover(ClientReader, left + chunks[n])
  {
    var a, b := bytes + Flatten(chunks[..n]), bytes + Flatten(chunks[..n + 1]);
    assert chunks[..n + 1][..n] == chunks[..n];
    assert b == a + chunks[n];
    FramesConcat(ClientReader, a, chunks[n]);
    var rest := FlattenFrom(chunks, n + 1);
    assert bytes + Flatten(chunks) == b + rest;
    FramesConcat(ClientReader, b, rest);
    before, after := Frames(ClientReader, a), Frames(ClientReader, Leftover(ClientReader, b) + rest);
  }

  lemma ChunkIsQuiet(bytes: Text, chunks: seq<Text>, n: nat, floats: Floats, self: nat)
    requires n < |chunks|
    requires AllQuiet(MessagesOf(Frames(ClientReader, bytes + Flatten(chunks)), floats), self)
    ensures var left := Leftover(ClientReader, bytes + Flatten(chunks[..n]));
            && AllQuiet(MessagesOf(Frames(ClientReader, left + chunks[n]), floats), self)
            && Leftover(ClientReader, bytes + Flatten(chunks[..n + 1])) == Leftover(ClientReader, left + chunks[n])
  {
    var before, after := ChunkCompletes(bytes, chunks, n);
    var left := Leftover(ClientReader, bytes + Flatten(chunks[..n]));
    PartIsQuiet(before, Frames(ClientReader, left + chunks[n]), after, floats, self);
  }

  /** The local player has walked `n` turns from `p`, holding the keys at the heading. */
  predicate WalkedTo(q: Position, p: Position, keys: Keys, yaw: Angle, n: nat) {
    && Vec2(q.x, q.z) == Walk(Vec2(p.x, p.z), FlagsOf(keys), CLIENT_STEP, yaw, n)
    && q.y == p.y && q.yaw == if n == 0 then p.yaw else yaw
  }

  /** One chunk and one turn. */
  method OneTurn(client: LogicThread, keys: Keys, cameraYaw: Text, chunk: Text, ghost p: Position, ghost n: nat)
    requires client.Valid() && client.network.Valid() && client.network.inbound.queue == [] && |cameraYaw| == 4
    requires client.ViewNow().inWorld
    requires WalkedTo(client.ViewNow().local.value, p, keys, client.floats.angle(cameraYaw), n)
    requires AllQuiet(MessagesOf(Frames(ClientReader, client.network.Unparsed() + chunk), client.floats),
                      client.ViewNow().self)
    modifies client, client.network, client.network.inbound
    ensures client.Valid() && client.network.Valid() && client.network.inbound.queue == []
    ensures client.network.Unparsed() == Leftover(ClientReader, old(client.network.Unparsed()) + chunk)
    ensures client.ViewNow().inWorld && client.ViewNow().self == old(client.ViewNow().self)
    ensures WalkedTo(client.ViewNow().local.value, p, keys, client.floats.angle(cameraYaw), n + 1)
  {
    client.network.OnBytes(chunk);
    QuietFold(client.ViewNow(), MessagesOf(client.network.inbound.queue, client.floats));
    client.RunTick(keys, cameraYaw);
  }

  /** The keys held at the heading lead `reach` units along each axis that is not cancelled out. */
  predicate Covers(p: Position, q: Position, keys: Keys, yaw: Angle, reach: real) {
    && KeysAdd(Vec2(p.x, p.z), Vec2(q.x, q.z), keys.up, keys.down, keys.left, keys.right,
               yaw.sin * reach, yaw.cos * reach)
    && q.y == p.y
  }

  lemma StepCovers(p: Position, q: Position, keys: Keys, yaw: Angle, reach: real)
    requires Vec2(q.x, q.z) == ApplyMoveFlags(Vec2(p.x, p.z), FlagsOf(keys), reach, yaw) && q.y == p.y
    ensures Covers(p, q, keys, yaw, reach)
  {
    StepByKeys(Vec2(p.x, p.z), FlagsOf(keys), reach, yaw);
  }

  /** Where `n` turns lead, in coordinates. */
  lemma TurnsInCoordinates(q: Position, p: Position, keys: Keys, yaw: Angle, n: nat)
    requires WalkedTo(q, p, keys, yaw, n)
    ensures Covers(p, q, keys, yaw, n as real * (1.28 / 64.0))
  {
    WalkIsOneScaledStep(Vec2(p.x, p.z), FlagsOf(keys), CLIENT_STEP, yaw, n);
    assert CLIENT_STEP == 1.28 / 64.0;
    StepCovers(p, q, keys, yaw, n as real * CLIENT_STEP);
  }

  /** The `n`-th chunk and a turn, where all the chunks together say nothing of the local player. */
  method NextTurn(client: LogicThread, keys: Keys, cameraYaw: Text, chunks: seq<Text>, n: nat, ghost bytes: Text,
                  ghost p: Position)
    requires client.Valid() && client.network.Valid() && client.network.inbound.queue == [] && |cameraYaw| == 4
    requires client.ViewNow().inWorld
    requires WalkedTo(client.ViewNow().local.value, p, keys, client.floats.angle(cameraYaw), n)
    requires n < |chunks| && client.network.Unparsed() == Leftover(ClientReader, bytes + Flatten(chunks[..n]))
    requires AllQuiet(MessagesOf(Frames(ClientReader, bytes + Flatten(chunks)), client.floats), client.ViewNow().self)
    modifies client, client.network, client.network.inbound
    ensures client.Valid() && client.network.Valid() && client.network.inbound.queue == []
    ensures client.network.Unparsed() == Leftover(ClientReader, bytes + Flatten(chunks[..n + 1]))
    ensures client.ViewNow().inWorld && client.ViewNow().self == old(client.ViewNow().self)
    ensures WalkedTo(client.ViewNow().local.value, p, keys, client.floats.angle(cameraYaw), n + 1)
  {
    ChunkIsQuiet(bytes, chunks, n, client.floats, client.ViewNow().self);
    OneTurn(client, keys, cameraYaw, chunks[n], p, n);
  }

  method TurnByTurn(client: LogicThread, keys: Keys, cameraYaw: Text, chunks: seq<Text>)
    requires client.Valid() && client.network.Valid() && client.network.inbound.queue == [] && |cameraYaw| == 4
    requires client.ViewNow().inWorld && !HasPacket(ClientReader, client.network.Unparsed())
    requires AllQuiet(MessagesOf(Frames(ClientReader, client.network.Unparsed() + Flatten(chunks)), client.floats),
                      client.ViewNow().self)
    modifies client, client.network, client.network.inbound
    ensures client.Valid() && client.ViewNow().inWorld
    ensures WalkedTo(client.ViewNow().local.value, old(client.ViewNow().local.value), keys,
                     client.floats.angle(cameraYaw), |chunks|)
  {
    ghost var p, bytes, self := client.ViewNow().local.value, client.network.Unparsed(), client.ViewNow().self;
    assert bytes + Flatten(chunks[..0]) == bytes;
    for n := 0 to |chunks|
      invariant client.Valid() && client.network.Valid() && client.network.inbound.queue == []
      invariant client.network.Unparsed() == Leftover(ClientReader, bytes + Flatten(chunks[..n]))
      invariant client.ViewNow().inWorld && client.ViewNow().self == self
      invariant WalkedTo(client.ViewNow().local.value, p, keys, client.floats.angle(cameraYaw), n)
    {
      NextTurn(client, keys, cameraYaw, chunks, n, bytes, p);
    }
  }

  /** Turn after turn with the same keys and camera, whatever arrives about others: the local player
      gets as far as one step of that many 64ths of a second would take it. */
  method Turns(client: LogicThread, keys: Keys, cameraYaw: Text, chunks: seq<Text>)
    requires client.Valid() && client.network.Valid() && client.network.inbound.queue == [] && |cameraYaw| == 4
    requires client.ViewNow().inWorld && !HasPacket(ClientReader, client.network.Unparsed())
    requires AllQuiet(MessagesOf(Frames(ClientReader, client.network.Unparsed() + Flatten(chunks)), client.floats),
                      client.ViewNow().self)
    modifies client, client.network, client.network.inbound
    ensures client.Valid() && client.ViewNow().inWorld
    ensures WalkedTo(client.ViewNow().local.value, old(client.ViewNow().local.value), keys,
                     client.floats.angle(cameraYaw), |chunks|)
    ensures Covers(old(client.ViewNow().local.value), client.ViewNow().local.value, keys,
                   client.floats.angle(cameraYaw), |chunks| as real * (1.28 / 64.0))
    ensures |chunks| > 0 ==> client.ViewNow().local.value.yaw == client.floats.angle(cameraYaw)
  {
    ghost var p := client.ViewNow().local.value;
    TurnByTurn(client, keys, cameraYaw, chunks);
    TurnsInCoordinates(client.ViewNow().local.value, p, keys, client.floats.angle(cameraYaw), |chunks|);
  }

  // ----- the server -----

  /** The entity has walked `n` ticks from `p` by the input it holds. */
  predicate Walked(q: Position, p: Position, input: World.PlayerInput, n: nat) {
    && Vec2(q.x, q.z) == Walk(Vec2(p.x, p.z), input.moveFlags, SERVER_STEP, input.yaw, n)
    && q.y == p.y && q.yaw == if n == 0 then p.yaw else input.yaw
  }

  lemma TickWalks(before: World.Entity, p: Position, n: nat)
    requires Walked(before.position, p, before.input, n)
    ensures Walked(World.Moved(before).position, p, before.input, n + 1)
  {
  }

  method OneTick(game: G.GameServer, order: seq<World.EntityId>, failed: set<World.EntityId>, e: World.EntityId,
                 ghost p: Position, ghost n: nat)
    requires game.Valid() && e in game.valid && World.Enumerates(order, game.WorldNow())
    requires Walked(game.positions[e], p, game.inputs[e], n)
    modifies game`positions, game`sessions, game`tickCount, game.accepted, game.db`tables
    ensures game.Valid() && game.accepted == old(game.accepted) && game.WorldNow().Keys == old(game.WorldNow().Keys)
    ensures Walked(game.positions[e], p, game.inputs[e], n + 1)
  {
    TickWalks(game.WorldNow()[e], p, n);
    game.GameLoopTick(order, failed);
    assert game.WorldNow() == game.State().world;
    assert game.WorldNow()[e].position == game.positions[e];
  }

  /** Tick after tick, in whatever view orders and whichever saves fail: an entity whose input stays
      walks on by it. */
  method Ticks(game: G.GameServer, orders: seq<seq<World.EntityId>>, failed: seq<set<World.EntityId>>,
               e: World.EntityId)
    requires game.Valid() && e in game.valid && |failed| == |orders|
    requires forall n | 0 <= n < |orders| :: World.Enumerates(orders[n], game.WorldNow())
    modifies game`positions, game`sessions, game`tickCount, game.accepted, game.db`tables
    ensures game.Valid() && Walked(game.positions[e], old(game.positions)[e], game.inputs[e], |orders|)
  {
    ghost var p, world := game.positions[e], game.WorldNow();
    for n := 0 to |orders|
      invariant game.Valid() && game.accepted == old(game.accepted) && game.WorldNow().Keys == world.Keys
      invariant Walked(game.positions[e], p, game.inputs[e], n)
    {
      SameKeysSameOrders(orders[n], world, game.WorldNow());
      OneTick(game, orders[n], failed[n], e, p, n);
    }
  }

  lemma SameKeysSameOrders(order: seq<World.EntityId>, world: map<World.EntityId, World.Entity>,
                           world': map<World.EntityId, World.Entity>)
    requires World.Enumerates(order, world) && world'.Keys == world.Keys
    ensures World.Enumerates(order, world')
  {
    assert forall e :: e in world' <==> e in world'.Keys;
    assert forall e :: e in world <==> e in world.Keys;
  }

  // ----- both -----

  lemma KeysCancel(keys: Keys)
    ensures NoNetInput(FlagsOf(keys)) <==> keys.up == keys.down && keys.left == keys.right
  {
  }

  lemma WalksAgree(q: Position, r: Position, p: Position, keys: Keys, yaw: Angle, m: nat, n: nat)
    requires WalkedTo(q, p, keys, yaw, m) && Walked(r, p, World.PlayerInput(FlagsOf(keys), yaw), n)
    ensures q.y == r.y && (m > 0 && n > 0 ==> q.yaw == r.yaw)
    ensures q.x == r.x && q.z == r.z <==> 5 * m == 16 * n || (keys.up == keys.down && keys.left == keys.right)
  {
    PredictionAgreesExactly(Vec2(p.x, p.z), FlagsOf(keys), yaw, m, n);
    KeysCancel(keys);
  }

  /** The two programs side by side.  The player stands where the server has its entity and the server
      has taken its MOVE.  After m turns of the logic thread and n ticks of the game server, with the
      keys held and the camera still, and nothing said about the player meanwhile, both have it at one
      point if and only if m 64ths of a second are n 20ths, or the keys cancel out; at one height always,
      and with one heading. */
  method SideBySide(client: LogicThread, keys: Keys, cameraYaw: Text, chunks: seq<Text>, game: G.GameServer,
                    orders: seq<seq<World.EntityId>>, failed: seq<set<World.EntityId>>, e: World.EntityId)
    requires client.Valid() && client.network.Valid() && client.network.inbound.queue == [] && |cameraYaw| == 4
    requires client.ViewNow().inWorld && !HasPacket(ClientReader, client.network.Unparsed())
    requires AllQuiet(MessagesOf(Frames(ClientReader, client.network.Unparsed() + Flatten(chunks)), client.floats),
                      client.ViewNow().self)
    requires game.Valid() && e in game.valid && |failed| == |orders|
    requires forall n | 0 <= n < |orders| :: World.Enumerates(orders[n], game.WorldNow())
    requires game.inputs[e] == World.PlayerInput(FlagsOf(keys), client.floats.angle(cameraYaw))
    requires client.ViewNow().local == Some(game.positions[e])
    modifies client, client.network, client.network.inbound
    modifies game`positions, game`sessions, game`tickCount, game.accepted, game.db`tables
    ensures client.Valid() && client.ViewNow().inWorld && game.Valid() && e in game.valid
    ensures var p, q := client.ViewNow().local.value, game.positions[e];
            && p.y == q.y && (|chunks| > 0 && |orders| > 0 ==> p.yaw == q.yaw)
            && (p.x == q.x && p.z == q.z <==>
                  5 * |chunks| == 16 * |orders| || (keys.up == keys.down && keys.left == keys.right))
  {
    ghost var p, yaw := game.positions[e], client.floats.angle(cameraYaw);
    Turns(client, keys, cameraYaw, chunks);
    ghost var q := client.ViewNow().local.value;
    Ticks(game, orders, failed, e);
    WalksAgree(q, game.positions[e], p, keys, yaw, |chunks|, |orders|);
  }
}
