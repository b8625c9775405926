/** From a session's outgoing stream on the server to what the client's renderer is shown. */
module EndToEnd {
  import opened Protocol
  import opened Wire
  import opened Framing
  import opened Replica
  import opened LogicThread
  import G = GameConnection
  import World
  import opened System
  import opened Replication
  import opened Streams
  import opened Chats

  /** Sixteen bytes for a position. */
  datatype Printer = Printer(raw: Position -> Text)

  /** The numbers fit their fields: ids are 32 bits wide, a position survives its sixteen bytes. */
  predicate NumbersFit(m: Message, printer: Printer, floats: Floats) {
    match m
    case AuthOk(id) => id < 0x1_0000_0000
    case PlayerState(id, p) => id < 0x1_0000_0000 && |printer.raw(p)| == 16 && floats.position(printer.raw(p)) == p
    case PlayerLeave(id) => id < 0x1_0000_0000
    case _ => true
  }

  /** The message fits a packet of its own; a chat's name has no NUL, its text is as long as the server
      lets it be. */
  predicate Sendable(m: Message, printer: Printer, floats: Floats) {
    && NumbersFit(m, printer, floats) && !m.AuthOkTruncated? && !m.Unrecognised?
    && (m.Chat? ==> NamedChannel(m.channel) && 0 !in m.sender && |m.text| <= MAX_CHAT_MESSAGE_LEN)
  }

  /** What arrives: a name longer than its field loses its end. */
  function Received(m: Message): Message {
    if m.Chat? then m.(sender := Take(m.sender, 31)) else m
  }

  function AllReceived(ms: seq<Message>): (rs: seq<Message>)
    ensures |rs| == |ms| && forall k | 0 <= k < |ms| :: rs[k] == Received(ms[k])
  {
    seq(|ms|, k requires 0 <= k < |ms| => Received(ms[k]))
  }

  /** Cut names make no difference to what is shown. */
  lemma {:induction false} NamesAreNotFolded(v: View, ms: seq<Message>)
    ensures Fold(v, AllReceived(ms)) == Fold(v, ms)
  {
    if ms != [] {
      var front := ms[..|ms| - 1];
      NamesAreNotFolded(v, front);
      assert AllReceived(ms) == AllReceived(front) + [Received(ms[|ms| - 1])];
      FoldOne(v, AllReceived(front), Received(ms[|ms| - 1]));
    }
  }

  /** The game server's send functions. */
  function PacketOf(m: Message, printer: Printer, floats: Floats): Packet
    requires Sendable(m, printer, floats)
  {
    match m
    case AuthOk(id) => AuthOkPacket(id)
    case AuthFail => Pack(SMSG_GAME_AUTH_FAIL, [])
    case PlayerState(id, p) => StatePacket(id, printer.raw(p))
    case PlayerLeave(id) => LeavePacket(id)
    case Chat(channel, sender, text) => ChatPacket(channel, sender, text)
    case Pong => Pack(SMSG_PONG, [])
  }

  predicate AllSendable(ms: seq<Message>, printer: Printer, floats: Floats) {
    forall m | m in ms :: Sendable(m, printer, floats)
  }

  function PacketsOf(ms: seq<Message>, printer: Printer, floats: Floats): (ps: seq<Packet>)
    requires AllSendable(ms, printer, floats)
    ensures |ps| == |ms| && forall k | 0 <= k < |ms| :: ps[k] == PacketOf(ms[k], printer, floats)
  {
    seq(|ms|, k requires 0 <= k < |ms| => PacketOf(ms[k], printer, floats))
  }

  lemma MessageReadsBack(m: Message, printer: Printer, floats: Floats)
    requires Sendable(m, printer, floats)
    ensures WellFormed(PacketOf(m, printer, floats))
    ensures ClientReads(PacketOf(m, printer, floats), floats.position) == Received(m)
  {
    match m
    case AuthOk(id) => GamePacketsReadBack(id, Nuls(16), floats.position);
    case PlayerState(id, p) => GamePacketsReadBack(id, printer.raw(p), floats.position);
    case PlayerLeave(id) => GamePacketsReadBack(id, Nuls(16), floats.position);
    case Chat(channel, sender, text) => ChatReadsBack(channel, sender, text, floats.position);
    case _ =>
  }

  /** However the bytes of a stream are cut into chunks, the client's framer and decoder give back the
      stream, names cut to 31 bytes. */
  lemma StreamReadsBack(ms: seq<Message>, printer: Printer, floats: Floats, chunks: seq<Text>)
    requires AllSendable(ms, printer, floats)
    requires Flatten(chunks) == EncodeAll(PacketsOf(ms, printer, floats))
    ensures MessagesOf(Frames(ClientReader, Flatten(chunks)), floats) == AllReceived(ms)
    ensures Leftover(ClientReader, Flatten(chunks)) == []
  {
    var ps := PacketsOf(ms, printer, floats);
    forall k | 0 <= k < |ms|
      ensures WellFormed(ps[k]) && ClientReads(ps[k], floats.position) == Received(ms[k])
    {
      MessageReadsBack(ms[k], printer, floats);
    }
    assert Flatten(chunks) + [] == Flatten(chunks);
    ChunkingDoesNotMatter(ps, chunks, []);
  }

  // ----- what the game server sends is sendable -----

  predicate AllNumbersFit(ms: seq<Message>, printer: Printer, floats: Floats) {
    forall m | m in ms :: NumbersFit(m, printer, floats)
  }

  /** Only messages the server has a packet for. */
  lemma StreamsAreRegular(x: State, run: seq<Event>, i: World.SessionId)
    requires Initial(x) && i < |Exec(x, run).server.sessions|
    ensures forall m | m in Exec(x, run).server.sessions[i].sent :: !m.AuthOkTruncated? && !m.Unrecognised?
  {
    StreamProtocol(x, run, i);
    var session := Exec(x, run).server.sessions[i];
    var sent := session.sent;
    forall m | m in sent
      ensures !m.AuthOkTruncated? && !m.Unrecognised?
    {
      var n :| 0 <= n < |sent| && sent[n] == m;
      if session.phase == World.Authenticated {
        var k: nat, c: nat :| EntersAt(sent, k, c);
        if n < k {
          assert sent[..k][n] == AuthFail;
        } else if n > k {
          assert sent[k + 1..][n - k - 1] == m;
        }
      }
    }
  }

  /** In every run whose requests were read from packets, with usernames that are text, every stream
      can be sent as far as its numbers fit. */
  lemma StreamsAreSendable(x: State, run: seq<Event>, i: World.SessionId, printer: Printer, floats: Floats)
    requires Initial(x) && UsernamesAreText(x.tables) && AllDecoded(run) && i < |Exec(x, run).server.sessions|
    ensures var sent := Exec(x, run).server.sessions[i].sent;
            AllSendable(sent, printer, floats) <==> AllNumbersFit(sent, printer, floats)
  {
    StreamsAreRegular(x, run, i);
    ChatsAreWellFormed(x, run, i);
  }

  /** What session `i`'s client gets to read if everything arrives. */
  ghost function BytesFor(x: State, run: seq<Event>, i: World.SessionId, printer: Printer, floats: Floats): Text
    requires Initial(x) && UsernamesAreText(x.tables) && AllDecoded(run) && i < |Exec(x, run).server.sessions|
    requires AllNumbersFit(Exec(x, run).server.sessions[i].sent, printer, floats)
  {
    StreamsAreSendable(x, run, i, printer, floats);
    EncodeAll(PacketsOf(Exec(x, run).server.sessions[i].sent, printer, floats))
  }

  // ----- a client's stay -----

  /** What the player does during one turn of the logic thread. */
  datatype Input = Input(keys: Keys, cameraYaw: Text)

  ghost predicate Refreshed(client: LogicThread)
    requires client.Valid()
    reads client
  {
    client.ViewNow().inWorld ==> Shows(client.players, client.ViewNow())
  }

  /** The MOVE packets of a list of intents. */
  function MovesOf(intents: seq<G.Intent>): (ps: seq<Packet>)
    requires AllWhole(intents)
    ensures |ps| == |intents|
    ensures forall k | 0 <= k < |intents| :: ps[k] == MovePacket(intents[k].flags, intents[k].yaw)
  {
    seq(|intents|, k requires 0 <= k < |intents| => MovePacket(intents[k].flags, intents[k].yaw))
  }

  predicate AllWhole(intents: seq<G.Intent>) {
    forall k | 0 <= k < |intents| :: |intents[k].yaw| == 4
  }

  lemma {:induction false} EncodeOneMore(ps: seq<Packet>, p: Packet)
    ensures EncodeAll(ps + [p]) == EncodeAll(ps) + Encode(p)
  {
    if ps == [] {
      assert [] + [p] == [p];
    } else {
      assert (ps + [p])[1..] == ps[1..] + [p];
      EncodeOneMore(ps[1..], p);
    }
  }

  /** What the first `n` turns send: the keys and the heading of every turn that finds the client in the
      world. */
  function IntentsOf(chunks: seq<Text>, inputs: seq<Input>, floats: Floats, n: nat): seq<G.Intent>
    requires n <= |chunks| == |inputs|
  {
    if n == 0 then []
    else
      IntentsOf(chunks, inputs, floats, n - 1) +
      TurnIntent(Fold(START, MessagesOf(Frames(ClientReader, Flatten(chunks[..n])), floats)), inputs[n - 1])
  }

  /** A client's whole stay: chunks of bytes arriving between turns of the logic thread. */
  method Play(client: LogicThread, chunks: seq<Text>, inputs: seq<Input>) returns (ghost intents: seq<G.Intent>)
    requires |inputs| == |chunks| && forall k | 0 <= k < |inputs| :: |inputs[k].cameraYaw| == 4
    requires client.Valid() && client.ViewNow() == START && client.network.open
    requires client.network.Valid() && client.network.Unparsed() == [] && client.network.inbound.queue == []
    modifies client, client.network, client.network.inbound
    ensures client.Valid() && client.network.inbound.queue == []
    ensures SameButLocal(client.ViewNow(),
                         Fold(START, MessagesOf(Frames(ClientReader, Flatten(chunks)), client.floats)))
    ensures Refreshed(client)
    ensures AllWhole(intents) && client.network.written == old(client.network.written) + EncodeAll(MovesOf(intents))
    ensures intents == IntentsOf(chunks, inputs, client.floats, |chunks|)
  {
    intents := [];
    for n := 0 to |chunks|
      invariant client.Valid() && client.network.Valid() && client.network.inbound.queue == [] && client.network.open
      invariant client.network.Unparsed() == Leftover(ClientReader, Flatten(chunks[..n]))
      invariant SameButLocal(client.ViewNow(),
                             Fold(START, MessagesOf(Frames(ClientReader, Flatten(chunks[..n])), client.floats)))
      invariant Refreshed(client) && intents == IntentsOf(chunks, inputs, client.floats, n)
      invariant AllWhole(intents) && client.network.written == old(client.network.written) + EncodeAll(MovesOf(intents))
    {
      intents := PlayOne(client, chunks, n, inputs[n], old(client.network.written), intents);
    }
    assert chunks[..|chunks|] == chunks;
  }

  lemma MovesGrow(before: Text, intents: seq<G.Intent>, input: Input)
    requires AllWhole(intents) && |input.cameraYaw| == 4
    ensures var more := [G.Intent(FlagsOf(input.keys), input.cameraYaw)];
            && AllWhole(intents + more)
            && before + EncodeAll(MovesOf(intents + more)) ==
               before + EncodeAll(MovesOf(intents)) + Encode(MovePacket(FlagsOf(input.keys), input.cameraYaw))
  {
    var more, p := [G.Intent(FlagsOf(input.keys), input.cameraYaw)], MovePacket(FlagsOf(input.keys), input.cameraYaw);
    assert MovesOf(intents + more) == MovesOf(intents) + [p];
    EncodeOneMore(MovesOf(intents), p);
  }

  /** One turn: the mailbox is folded into the view, up to prediction of the local player, and the keys
      and heading used for it are sent. */
  method Turn(client: LogicThread, input: Input, ghost before: Text, ghost intents: seq<G.Intent>)
    returns (ghost intents': seq<G.Intent>)
    requires client.Valid() && client.network.Valid() && |input.cameraYaw| == 4 && client.network.open
    requires AllWhole(intents) && client.network.written == before + EncodeAll(MovesOf(intents))
    modifies client, client.network.inbound, client.network`written
    ensures client.Valid() && client.network.Valid() && client.network.inbound.queue == []
    ensures client.network.Unparsed() == old(client.network.Unparsed())
    ensures SameButLocal(client.ViewNow(),
                         Fold(old(client.ViewNow()), MessagesOf(old(client.network.inbound.queue), client.floats)))
    ensures Refreshed(client)
    ensures intents' == intents + TurnIntent(client.ViewNow(), input) && AllWhole(intents')
    ensures client.network.written == before + EncodeAll(MovesOf(intents'))
  {
    client.RunTick(input.keys, input.cameraYaw);
    intents' := intents + TurnIntent(client.ViewNow(), input);
    MovesGrow(before, intents, input);
    assert client.ViewNow().inWorld || intents' == intents;
  }

  /** What a turn sends. */
  function TurnIntent(v: View, input: Input): seq<G.Intent> {
    if v.inWorld then [G.Intent(FlagsOf(input.keys), input.cameraYaw)] else []
  }

  /** One chunk and one turn. */
  method PlayOne(client: LogicThread, chunks: seq<Text>, n: nat, input: Input,
                 ghost before: Text, ghost intents: seq<G.Intent>) returns (ghost intents': seq<G.Intent>)
    requires AllWhole(intents) && client.network.written == before + EncodeAll(MovesOf(intents))
    requires n < |chunks| && |input.cameraYaw| == 4 && client.network.open
    requires client.Valid() && client.network.Valid() && client.network.inbound.queue == []
    requires client.network.Unparsed() == Leftover(ClientReader, Flatten(chunks[..n]))
    requires SameButLocal(client.ViewNow(),
                          Fold(START, MessagesOf(Frames(ClientReader, Flatten(chunks[..n])), client.floats)))
    modifies client, client.network, client.network.inbound
    ensures client.Valid() && client.network.Valid() && client.network.inbound.queue == [] && client.network.open
    ensures client.network.Unparsed() == Leftover(ClientReader, Flatten(chunks[..n + 1]))
    ensures SameButLocal(client.ViewNow(),
                         Fold(START, MessagesOf(Frames(ClientReader, Flatten(chunks[..n + 1])), client.floats)))
    ensures Refreshed(client)
    ensures intents' == intents +
            TurnIntent(Fold(START, MessagesOf(Frames(ClientReader, Flatten(chunks[..n + 1])), client.floats)), input)
    ensures AllWhole(intents') && client.network.written == before + EncodeAll(MovesOf(intents'))
  {
    ghost var v, floats := client.ViewNow(), client.floats;
    client.network.OnBytes(chunks[n]);
    ghost var arrived := client.network.inbound.queue;
    assert arrived == Frames(ClientReader, Leftover(ClientReader, Flatten(chunks[..n])) + chunks[n]);
    OneMoreChunk(chunks, n, v, arrived, floats);
    intents' := Turn(client, input, before, intents);
  }

  lemma OneMoreChunk(chunks: seq<Text>, n: nat, v: View, arrived: seq<Packet>, floats: Floats)
    requires n < |chunks|
    requires SameButLocal(v, Fold(START, MessagesOf(Frames(ClientReader, Flatten(chunks[..n])), floats)))
    requires arrived == Frames(ClientReader, Leftover(ClientReader, Flatten(chunks[..n])) + chunks[n])
    ensures Leftover(ClientReader, Flatten(chunks[..n + 1])) ==
            Leftover(ClientReader, Leftover(ClientReader, Flatten(chunks[..n])) + chunks[n])
    ensures SameButLocal(Fold(v, MessagesOf(arrived, floats)),
                         Fold(START, MessagesOf(Frames(ClientReader, Flatten(chunks[..n + 1])), floats)))
  {
    var before := Frames(ClientReader, Flatten(chunks[..n]));
    assert chunks[..n + 1][..n] == chunks[..n];
    FramesConcat(ClientReader, Flatten(chunks[..n]), chunks[n]);
    assert MessagesOf(before + arrived, floats) == MessagesOf(before, floats) + MessagesOf(arrived, floats);
    FoldConcat(START, MessagesOf(before, floats), MessagesOf(arrived, floats));
    PredictionStaysLocal(v, Fold(START, MessagesOf(before, floats)), MessagesOf(arrived, floats));
  }

  /** A client that has received the stream `sent`, whatever the chunking, the keys and the camera: it
      shows exactly the players its fold tracks, and with one AUTH_OK on the stream nobody twice; and
      what it has written is one MOVE, with the keys and the heading of the turn, for each turn that
      found it in the world. */
  method Stay(client: LogicThread, sent: seq<Message>, printer: Printer, chunks: seq<Text>, inputs: seq<Input>)
    returns (ghost intents: seq<G.Intent>)
    requires AllSendable(sent, printer, client.floats)
    requires Flatten(chunks) == EncodeAll(PacketsOf(sent, printer, client.floats))
    requires |inputs| == |chunks| && forall k | 0 <= k < |inputs| :: |inputs[k].cameraYaw| == 4
    requires client.Valid() && client.ViewNow() == START && client.network.open
    requires client.network.Valid() && client.network.Unparsed() == [] && client.network.inbound.queue == []
    modifies client, client.network, client.network.inbound
    ensures client.Valid() && SameButLocal(client.ViewNow(), Fold(START, sent))
    ensures EnteredBefore(sent, |sent|) ==> Shows(client.players, client.ViewNow())
    ensures HasOneAuthOk(sent) ==> RepeatsNoId(client.players)
    ensures AllWhole(intents) && client.network.written == old(client.network.written) + EncodeAll(MovesOf(intents))
    ensures intents == IntentsOf(chunks, inputs, client.floats, |chunks|)
  {
    StreamReadsBack(sent, printer, client.floats, chunks);
    NamesAreNotFolded(START, sent);
    intents := Play(client, chunks, inputs);
    FoldIdentity(sent);
    if HasOneAuthOk(sent) {
      SelfIsNeverRemote(sent);
      SnapshotIds(client.players, client.ViewNow());
    }
  }

  // ----- from the server's world to the renderer -----

  /** The entry says where some entity of its character stands. */
  ghost predicate Stands(entry: PlayerRenderState, world: map<World.EntityId, World.Entity>) {
    exists e :: e in world && world[e].data.characterId == entry.characterId && !entry.isLocal &&
      entry.x == world[e].position.x && entry.y == world[e].position.y && entry.z == world[e].position.z
  }

  /** The player is shown itself first and then only other characters that are in the world, none
      twice, each where the server has one of its entities. */
  ghost predicate ShowsWorld(players: seq<PlayerRenderState>, s: World.Server, i: World.SessionId) {
    && World.InWorld(s, i) && |players| > 0 && players[0].characterId == Plays(s, i) && players[0].isLocal
    && RepeatsNoId(players)
    && forall k | 1 <= k < |players| :: players[k].characterId != Plays(s, i) && Stands(players[k], s.world)
  }

  lemma SnapshotOfWorld(x: State, run: seq<Event>, i: World.SessionId, v: View, players: seq<PlayerRenderState>)
    requires Initial(x) && Playing(Exec(x, run).server, i)
    requires SameButLocal(v, ViewOf(Exec(x, run).server, i)) && Shows(players, v)
    ensures ShowsWorld(players, Exec(x, run).server, i)
  {
    ReplicasReflectTheWorld(x, run, i);
    SnapshotIds(players, v);
    var s := Exec(x, run).server;
    forall k | 1 <= k < |players|
      ensures players[k].characterId != Plays(s, i) && Stands(players[k], s.world)
    {
      var c := players[k].characterId;
      assert c in ViewOf(s, i).remote && ViewOf(s, i).remote[c] == v.remote[c];
      var e :| e in s.world && s.world[e].data.characterId == c && s.world[e].position == v.remote[c];
    }
  }

  /** The last thing that happened is a tick. */
  ghost predicate EndsWithTick(x: State, run: seq<Event>) {
    run != [] && run[|run| - 1].TickEvent? && Enabled(Exec(x, run[..|run| - 1]), run[|run| - 1])
  }

  /** Every other character in the world is among the players shown, and no other. */
  ghost predicate ShowsAllOthers(players: seq<PlayerRenderState>, s: World.Server, i: World.SessionId)
    requires World.InWorld(s, i)
  {
    forall c :: c in Characters(s.world) - {Plays(s, i)} <==>
      exists k | 1 <= k < |players| :: players[k].characterId == c
  }

  lemma AllOthersShown(s: World.Server, i: World.SessionId, v: View, players: seq<PlayerRenderState>)
    requires World.InWorld(s, i) && v.remote.Keys == Characters(s.world) - {Plays(s, i)} && Shows(players, v)
    ensures ShowsAllOthers(players, s, i)
  {
    SnapshotIds(players, v);
    assert forall c :: c in v.remote <==> c in v.remote.Keys;
  }

  lemma CompleteAtTheEnd(x: State, run: seq<Event>, i: World.SessionId)
    requires Initial(x) && Playing(Exec(x, run).server, i) && EndsWithTick(x, run)
    ensures var s := Exec(x, run).server;
            World.InWorld(s, i) && ViewOf(s, i).remote.Keys == Characters(s.world) - {Plays(s, i)}
  {
    var front, last := run[..|run| - 1], run[|run| - 1];
    assert front + [last] == run;
    ReplicasCompleteAfterTick(x, front, last, i);
  }

  lemma SnapshotAfterTick(x: State, run: seq<Event>, i: World.SessionId, v: View, players: seq<PlayerRenderState>)
    requires Initial(x) && Playing(Exec(x, run).server, i) && EndsWithTick(x, run)
    requires SameButLocal(v, ViewOf(Exec(x, run).server, i)) && Shows(players, v)
    ensures World.InWorld(Exec(x, run).server, i) && ShowsAllOthers(players, Exec(x, run).server, i)
  {
    CompleteAtTheEnd(x, run, i);
    AllOthersShown(Exec(x, run).server, i, v, players);
  }

  /** A live player's stream has its AUTH_OK. */
  lemma PlayersHaveEntered(x: State, run: seq<Event>, i: World.SessionId)
    requires Initial(x) && Playing(Exec(x, run).server, i)
    ensures var sent := Exec(x, run).server.sessions[i].sent;
            EnteredBefore(sent, |sent|)
  {
    StreamProtocol(x, run, i);
    var sent := Exec(x, run).server.sessions[i].sent;
    var k: nat, c: nat :| EntersAt(sent, k, c);
    assert sent[k].AuthOk?;
  }

  /** The whole chain.  In any run of the system whose requests were read from packets, take a live
      player and a client that has received the bytes of its stream to the end, in any chunks, its keys
      and camera doing what they like: the renderer is shown the server's world as it is now, and after
      a tick the whole of it. */
  method WatchTheWorld(client: LogicThread, ghost x: State, ghost run: seq<Event>, i: World.SessionId,
                       ghost printer: Printer, chunks: seq<Text>, inputs: seq<Input>)
    requires Initial(x) && UsernamesAreText(x.tables) && AllDecoded(run) && Playing(Exec(x, run).server, i)
    requires AllNumbersFit(Exec(x, run).server.sessions[i].sent, printer, client.floats)
    requires Flatten(chunks) == BytesFor(x, run, i, printer, client.floats)
    requires |inputs| == |chunks| && forall k | 0 <= k < |inputs| :: |inputs[k].cameraYaw| == 4
    requires client.Valid() && client.ViewNow() == START && client.network.open
    requires client.network.Valid() && client.network.Unparsed() == [] && client.network.inbound.queue == []
    modifies client, client.network, client.network.inbound
    ensures ShowsWorld(client.players, Exec(x, run).server, i)
    ensures EndsWithTick(x, run) ==> ShowsAllOthers(client.players, Exec(x, run).server, i)
  {
    ghost var sent := Exec(x, run).server.sessions[i].sent;
    PlayersHaveEntered(x, run, i);
    StreamsAreSendable(x, run, i, printer, client.floats);
    StreamReadsBack(sent, printer, client.floats, chunks);
    NamesAreNotFolded(START, sent);
    FoldIdentity(sent);
    ghost var intents := Play(client, chunks, inputs);
    SnapshotOfWorld(x, run, i, client.ViewNow(), client.players);
    if EndsWithTick(x, run) {
      SnapshotAfterTick(x, run, i, client.ViewNow(), client.players);
    }
  }

  // ----- from the client's keys to the server's strand -----

  lemma AuthThenMoves(token: Text, intents: seq<G.Intent>)
    requires |token| == TOKEN_LENGTH && AllWhole(intents)
    ensures forall m | m in intents :: |m.yaw| == 4
    ensures EncodeAll(G.ClientPackets(token, intents)) == Encode(GameAuthPacket(token)) + EncodeAll(MovesOf(intents))
  {
    assert G.ClientPackets(token, intents)[1..] == MovesOf(intents);
  }

  /** What a redirected client has written, its token and then keys and headings, is what the server
      hears from that session, in whatever run: a prefix of it, and all of it once all the bytes have
      arrived and been processed. */
  lemma ServerHearsKeys(conn: G.GameConnection, x: State, run: seq<Event>, token: Text, intents: seq<G.Intent>,
                        more: Text)
    requires conn.Valid(x, run) && |token| == TOKEN_LENGTH && AllWhole(intents)
    requires conn.reader.log.arrived + more == Encode(GameAuthPacket(token)) + EncodeAll(MovesOf(intents))
    ensures var heard := G.Heard(run, conn.i);
            && |heard| <= 1 + |intents|
            && (|heard| > 0 ==> heard[0] == GameAuth(token))
            && (forall k | 1 <= k < |heard| ::
                  heard[k] == Move(intents[k - 1].flags, conn.reader.angle(intents[k - 1].yaw)))
  {
    var ps := G.ClientPackets(token, intents);
    AuthThenMoves(token, intents);
    G.ClientIsUnderstood(token, intents, conn.reader.angle);
    conn.ServerHearsClient(x, run, ps, more);
    var heard, meant := G.Heard(run, conn.i), G.Meant(ps, conn.reader.angle);
    forall k | 1 <= k < |heard|
      ensures heard[k] == Move(intents[k - 1].flags, conn.reader.angle(intents[k - 1].yaw))
    {
      assert heard[k] == meant[1 + (k - 1)];
    }
  }
}
