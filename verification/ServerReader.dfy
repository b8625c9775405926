/** The game server's reading of one connection.  Its payload buffer is only overwritten by a
    packet that has a payload, so a header-only packet is dispatched with whatever the packets
    before it left there.  When does that differ from a buffer cleared for every packet? */
module ServerReader {
  import opened Protocol
  import opened Database
  import World
  import opened Wire
  import opened Framing

  /** What process_packet makes of a packet. */
  datatype Command =
    | Authenticate(token: Text)
    | HangUp
    | Answer
    | Steer(flags: byte, yaw: Angle)
    | Speak(channel: Channel, target: Text, text: Text)
    | Ignore

  datatype Conn = Waiting | Playing | Closed

  function CommandOf(conn: Conn, r: Request): Command {
    if conn.Waiting? then (if r.GameAuth? then Authenticate(r.token) else HangUp)
    else match r
      case Ping => Answer
      case Move(flags, yaw) => Steer(flags, yaw)
      case ChatSay(channel, target, text) => Speak(channel, target, text)
      case _ => Ignore
  }

  function Obey(s: World.Server, t: Tables, i: World.SessionId, c: Command, env: AuthEnv): (World.Server, Tables)
    requires i < |s.sessions|
  {
    match c
    case Authenticate(token) => World.HandleAuth(s, t, i, token, env)
    case HangUp => (World.Close(s, i), t)
    case Answer => (World.SendTo(s, i, Pong), t)
    case Steer(flags, yaw) => (World.HandleMove(s, i, flags, yaw), t)
    case Speak(channel, target, text) => (World.HandleChat(s, i, channel, target, text), t)
    case Ignore => (s, t)
  }

  /** Commands are all there is to a packet: equal commands have equal effects. */
  lemma CommandsDecide(s: World.Server, t: Tables, i: World.SessionId, r: Request, env: AuthEnv)
    requires i < |s.sessions|
    ensures var conn := if s.sessions[i].phase == World.WaitingForAuth then Waiting else Playing;
            World.ProcessPacket(s, t, i, r, env) == Obey(s, t, i, CommandOf(conn, r), env)
  {
  }

  // ----- the two readers -----

  datatype Policy = KeepStale | ClearFirst

  /** How bytes become angles, and which of a connection's packets, in order, end with the session
      authenticated. */
  datatype Setting = Setting(angle: Text -> Angle, verdicts: seq<bool>)

  predicate Verdict(env: Setting, k: nat) {
    k < |env.verdicts| && env.verdicts[k]
  }

  datatype Progress = Progress(conn: Conn, buffer: Text, commands: seq<Command>)

  const FRESH := Progress(Waiting, [], [])

  function Filled(policy: Policy, buffer: Text, p: Packet): Text {
    if p.payload != [] then p.payload else if policy == KeepStale then buffer else []
  }

  /** What a command makes of the connection. */
  function ConnAfter(conn: Conn, c: Command, succeeds: bool): Conn {
    if c.HangUp? then Closed else if c.Authenticate? && succeeds then Playing else conn
  }

  /** One packet, dispatched with the buffer as it stands. */
  function Dispatched(st: Progress, opcode: U16, buffer: Text, env: Setting): Progress {
    var c := CommandOf(st.conn, ServerReads(opcode, buffer, env.angle));
    Progress(ConnAfter(st.conn, c, Verdict(env, |st.commands|)), buffer, st.commands + [c])
  }

  /** Reading a list of packets; nothing is read after hanging up. */
  function ReadAll(policy: Policy, ps: seq<Packet>, env: Setting): Progress {
    if ps == [] then FRESH
    else
      var st, p := ReadAll(policy, ps[..|ps| - 1], env), ps[|ps| - 1];
      if st.conn.Closed? then st else Dispatched(st, p.opcode, Filled(policy, st.buffer, p), env)
  }

  lemma ReadOneMore(ps: seq<Packet>, p: Packet, env: Setting)
    ensures var st := ReadAll(KeepStale, ps, env);
            ReadAll(KeepStale, ps + [p], env) ==
            if st.conn.Closed? then st else Dispatched(st, p.opcode, Filled(KeepStale, st.buffer, p), env)
  {
    assert (ps + [p])[..|ps|] == ps;
  }

  /** The payload a packet at place `k` would find in the buffer. */
  function LastPayload(ps: seq<Packet>, k: nat): Text
    requires k <= |ps|
  {
    if k == 0 then [] else if ps[k - 1].payload != [] then ps[k - 1].payload else LastPayload(ps, k - 1)
  }

  /** How many payload bytes an opcode needs before the dispatcher acts on it. */
  function Needs(conn: Conn, opcode: U16): Option<nat> {
    if conn.Waiting? then (if opcode == CMSG_GAME_AUTH then Some(32) else None)
    else if opcode == CMSG_PLAYER_MOVE then Some(5)
    else if opcode == CMSG_CHAT_SAY then Some(33)
    else None
  }

  /** Packet `k` is read, has no payload of its own, and finds enough of an older one. */
  predicate ReadsStale(ps: seq<Packet>, k: nat, env: Setting)
    requires k < |ps|
  {
    var conn := ReadAll(ClearFirst, ps[..k], env).conn;
    && !conn.Closed?
    && ps[k].payload == []
    && Needs(conn, ps[k].opcode).Some?
    && |LastPayload(ps, k)| >= Needs(conn, ps[k].opcode).value
  }

  ghost predicate Diverged(a: seq<Command>, b: seq<Command>) {
    exists j | 0 <= j < |a| && j < |b| :: a[j] != b[j]
  }

  lemma {:induction false} LastPayloadOfPrefix(ps: seq<Packet>, p: Packet, k: nat)
    requires k <= |ps|
    ensures LastPayload(ps + [p], k) == LastPayload(ps, k)
  {
    if k > 0 {
      LastPayloadOfPrefix(ps, p, k - 1);
    }
  }

  lemma ReadsStaleInPrefix(ps: seq<Packet>, p: Packet, env: Setting)
    ensures forall k | 0 <= k < |ps| :: ReadsStale(ps + [p], k, env) <==> ReadsStale(ps, k, env)
  {
    forall k | 0 <= k < |ps|
      ensures ReadsStale(ps + [p], k, env) <==> ReadsStale(ps, k, env)
    {
      LastPayloadOfPrefix(ps, p, k);
      assert (ps + [p])[..k] == ps[..k];
    }
  }

  /** While the connection lasts, the keeping reader's buffer holds the last payload. */
  lemma {:induction false} BufferIsLastPayload(ps: seq<Packet>, env: Setting)
    ensures !ReadAll(KeepStale, ps, env).conn.Closed? ==> ReadAll(KeepStale, ps, env).buffer == LastPayload(ps, |ps|)
  {
    if ps != [] {
      var front, p := ps[..|ps| - 1], ps[|ps| - 1];
      assert ps == front + [p];
      BufferIsLastPayload(front, env);
      LastPayloadOfPrefix(front, p, |front|);
    }
  }

  /** One packet on a live connection: the two buffers lead to the same command unless the
      older payload is long enough to be taken for the packet's own. */
  lemma OnePacket(st: Progress, p: Packet, stale: Text, env: Setting)
    requires !st.conn.Closed?
    ensures var kept := Dispatched(st, p.opcode, if p.payload != [] then p.payload else stale, env);
            var cleared := Dispatched(st, p.opcode, p.payload, env);
            if p.payload == [] && Needs(st.conn, p.opcode).Some? && |stale| >= Needs(st.conn, p.opcode).value
            then kept.commands[|st.commands|] != cleared.commands[|st.commands|]
            else kept.commands == cleared.commands && kept.conn == cleared.conn
  {
  }

  lemma {:induction false} ReadersRelate(ps: seq<Packet>, env: Setting)
    ensures var kept, cleared := ReadAll(KeepStale, ps, env), ReadAll(ClearFirst, ps, env);
            if forall k | 0 <= k < |ps| :: !ReadsStale(ps, k, env)
            then kept.commands == cleared.commands && kept.conn == cleared.conn
            else Diverged(kept.commands, cleared.commands)
  {
    if ps != [] {
      var front, p, n := ps[..|ps| - 1], ps[|ps| - 1], |ps| - 1;
      assert ps == front + [p];
      ReadersRelate(front, env);
      ReadsStaleInPrefix(front, p, env);
      var kept, cleared := ReadAll(KeepStale, front, env), ReadAll(ClearFirst, front, env);
      if forall k | 0 <= k < n :: !ReadsStale(ps, k, env) {
        if !cleared.conn.Closed? {
          BufferIsLastPayload(front, env);
          LastPayloadOfPrefix(front, p, n);
          OnePacket(kept, p, kept.buffer, env);
          assert ReadsStale(ps, n, env) <==>
            p.payload == [] && Needs(kept.conn, p.opcode).Some? &&
            |kept.buffer| >= Needs(kept.conn, p.opcode).value;
        }
      } else {
        DivergedStays(kept, cleared, ps, env);
      }
    }
  }

  lemma DivergedStays(kept: Progress, cleared: Progress, ps: seq<Packet>, env: Setting)
    requires ps != []
    requires kept == ReadAll(KeepStale, ps[..|ps| - 1], env) && cleared == ReadAll(ClearFirst, ps[..|ps| - 1], env)
    requires Diverged(kept.commands, cleared.commands)
    ensures Diverged(ReadAll(KeepStale, ps, env).commands, ReadAll(ClearFirst, ps, env).commands)
  {
    var j :| 0 <= j < |kept.commands| && j < |cleared.commands| && kept.commands[j] != cleared.commands[j];
    var kept', cleared' := ReadAll(KeepStale, ps, env), ReadAll(ClearFirst, ps, env);
    assert kept'.commands[j] == kept.commands[j] && cleared'.commands[j] == cleared.commands[j];
  }

  /** Exactly when keeping the old payload is harmless: no packet without a payload finds an
      older one long enough for its opcode. */
  lemma StaleReaderIsFaithfulExactly(ps: seq<Packet>, env: Setting)
    ensures ReadAll(KeepStale, ps, env).commands == ReadAll(ClearFirst, ps, env).commands
            <==> forall k | 0 <= k < |ps| :: !ReadsStale(ps, k, env)
  {
    ReadersRelate(ps, env);
  }

  /** In particular when only pings are sent without a payload. */
  lemma PingsAreHarmless(ps: seq<Packet>, env: Setting)
    requires forall p | p in ps && p.payload == [] :: p.opcode == CMSG_PING
    ensures ReadAll(KeepStale, ps, env).commands == ReadAll(ClearFirst, ps, env).commands
  {
    ReadersRelate(ps, env);
    assert forall k | 0 <= k < |ps| :: ps[k] in ps;
  }

  /** And a stream on which it is not: a move without a payload repeats the one before it. */
  lemma StaleMoveIsRepeated(env: Setting, token: Text, raw: Text)
    requires |token| == TOKEN_LENGTH && |raw| == 4 && Verdict(env, 0)
    ensures var ps := [GameAuthPacket(token), MovePacket(UP, raw), Pack(CMSG_PLAYER_MOVE, [])];
            && (forall p | p in ps :: WellFormed(p))
            && var first := [Authenticate(token), Steer(UP, env.angle(raw))];
            && ReadAll(KeepStale, ps, env).commands == first + [Steer(UP, env.angle(raw))]
            && ReadAll(ClearFirst, ps, env).commands == first + [Ignore]
  {
    var a, m, e := GameAuthPacket(token), MovePacket(UP, raw), Pack(CMSG_PLAYER_MOVE, []);
    var ps := [a, m, e];
    assert ps[..2] == [a, m] && [a, m][..1] == [a] && [a][..0] == [];
    assert token[..32] == token;
    MovePacketReadsBack(UP, raw, env.angle);
    forall policy: Policy
      ensures ReadAll(policy, [a], env) == Progress(Playing, a.payload, [Authenticate(token)])
      ensures ReadAll(policy, [a, m], env) ==
              Progress(Playing, m.payload, [Authenticate(token), Steer(UP, env.angle(raw))])
    {
      assert ReadAll(policy, [a], env) == Dispatched(FRESH, a.opcode, a.payload, env);
    }
  }

  // ----- what does not depend on what -----

  /** Commands only depend on the verdicts about them. */
  lemma {:induction false} LaterVerdictsDoNotMatter(policy: Policy, ps: seq<Packet>, env: Setting, more: seq<bool>)
    requires |ps| <= |env.verdicts|
    ensures ReadAll(policy, ps, env.(verdicts := env.verdicts + more)) == ReadAll(policy, ps, env)
    ensures |ReadAll(policy, ps, env).commands| <= |ps|
  {
    if ps != [] {
      LaterVerdictsDoNotMatter(policy, ps[..|ps| - 1], env, more);
    }
  }

  /** The next packet, once its verdict is known. */
  lemma OneMoreVerdict(ps: seq<Packet>, p: Packet, env: Setting, succeeds: bool)
    requires |ps| == |env.verdicts| == |ReadAll(KeepStale, ps, env).commands|
    requires !ReadAll(KeepStale, ps, env).conn.Closed?
    ensures var st := ReadAll(KeepStale, ps, env);
            var buffer := Filled(KeepStale, st.buffer, p);
            var c := CommandOf(st.conn, ServerReads(p.opcode, buffer, env.angle));
            ReadAll(KeepStale, ps + [p], env.(verdicts := env.verdicts + [succeeds])) ==
            Progress(ConnAfter(st.conn, c, succeeds), buffer, st.commands + [c])
  {
    LaterVerdictsDoNotMatter(KeepStale, ps, env, [succeeds]);
    ReadOneMore(ps, p, env.(verdicts := env.verdicts + [succeeds]));
  }

  /** Reading a prefix issues a prefix of the commands. */
  lemma {:induction false} PrefixReads(policy: Policy, ps: seq<Packet>, n: nat, env: Setting)
    requires n <= |ps|
    ensures ReadAll(policy, ps[..n], env).commands <= ReadAll(policy, ps, env).commands
    decreases |ps|
  {
    if n == |ps| {
      assert ps[..n] == ps;
    } else {
      var front := ps[..|ps| - 1];
      PrefixReads(policy, front, n, env);
      assert front[..n] == ps[..n];
    }
  }

  // ----- the session as it runs -----

  /** The packets done, the packet waiting and the bytes unparsed make up what arrived. */
  ghost predicate Accounts(done: seq<Packet>, waiting: seq<Packet>, unparsed: Text, arrived: Text) {
    && done + waiting + Frames(ServerReader, unparsed) == Frames(ServerReader, arrived)
    && Leftover(ServerReader, unparsed) == Leftover(ServerReader, arrived)
  }

  lemma MoreFrames(bytes: Text, chunk: Text)
    ensures Frames(ServerReader, bytes) <= Frames(ServerReader, bytes + chunk)
  {
    FramesConcat(ServerReader, bytes, chunk);
  }

  lemma AccountsArrival(done: seq<Packet>, waiting: seq<Packet>, unparsed: Text, arrived: Text, chunk: Text)
    requires Accounts(done, waiting, unparsed, arrived)
    ensures Accounts(done, waiting, unparsed + chunk, arrived + chunk)
  {
    FramesConcat(ServerReader, arrived, chunk);
    FramesConcat(ServerReader, unparsed, chunk);
    Regroup(done + waiting, Frames(ServerReader, unparsed),
            Frames(ServerReader, Leftover(ServerReader, unparsed) + chunk));
  }

  lemma Regroup(a: seq<Packet>, b: seq<Packet>, c: seq<Packet>)
    ensures a + (b + c) == (a + b) + c
  {
  }

  lemma AccountsPacket(done: seq<Packet>, unparsed: Text, arrived: Text)
    requires Accounts(done, [], unparsed, arrived) && HasPacket(ServerReader, unparsed)
    ensures Accounts(done, [FirstPacket(ServerReader, unparsed)], unparsed[FirstLength(ServerReader, unparsed)..],
            arrived)
  {
    var p, rest := FirstPacket(ServerReader, unparsed), unparsed[FirstLength(ServerReader, unparsed)..];
    assert done + [] + ([p] + Frames(ServerReader, rest)) == done + [p] + Frames(ServerReader, rest);
  }

  lemma PacketAhead(size: U16, opcode: U16, rest: Text)
    requires |rest| >= PayloadLength(ServerReader, size)
    ensures var all, n := PutU16(size) + PutU16(opcode) + rest, PayloadLength(ServerReader, size);
            && HasPacket(ServerReader, all)
            && FirstPacket(ServerReader, all) == Packet(size, opcode, rest[..n])
            && all[FirstLength(ServerReader, all)..] == rest[n..]
  {
    HeaderAhead(size, opcode, rest);
    var all, n := PutU16(size) + PutU16(opcode) + rest, PayloadLength(ServerReader, size);
    assert all[HEADER_SIZE..HEADER_SIZE + n] == rest[..n] && all[HEADER_SIZE + n..] == rest[n..];
  }

  lemma AccountsDone(done: seq<Packet>, p: Packet, unparsed: Text, arrived: Text)
    requires Accounts(done, [p], unparsed, arrived)
    ensures Accounts(done + [p], [], unparsed, arrived) && done + [p] <= Frames(ServerReader, arrived)
  {
    assert done + [p] + [] == done + [p];
  }

  datatype Handler = HeaderRead | PayloadRead | PostedPacket

  /** The handlers without one `h`. */
  function Without(hs: seq<Handler>, h: Handler): seq<Handler> {
    if hs == [] then [] else if hs[0] == h then hs[1..] else [hs[0]] + Without(hs[1..], h)
  }

  /** A session's read chain: the handlers the I/O context will run (an armed read, or the processing
      step posted to the strand), the header and payload buffers, what is on the socket, and what
      has become of the connection. */
  datatype Chain = Chain(outstanding: seq<Handler>, size: U16, opcode: U16, payload: Text, socketBytes: Text,
                         open: bool, conn: Conn, commands: seq<Command>)

  /** Every byte that arrived, every packet that was processed, and what became of it. */
  datatype Log = Log(arrived: Text, processed: seq<Packet>, verdicts: seq<bool>)

  /** The bytes not yet in a whole packet. */
  function Unparsed(c: Chain): Text {
    if PayloadRead in c.outstanding then PutU16(c.size) + PutU16(c.opcode) + c.socketBytes else c.socketBytes
  }

  /** The packet waiting for the strand, if one is: a header-only packet has no payload, whatever the
      buffer holds. */
  function Posted(c: Chain): seq<Packet> {
    if PostedPacket in c.outstanding
    then [Packet(c.size, c.opcode, if PayloadLength(ServerReader, c.size) > 0 then c.payload else [])]
    else []
  }

  /** The command the posted packet amounts to. */
  function PostedCommand(c: Chain, angle: Text -> Angle): Command {
    CommandOf(c.conn, ServerReads(c.opcode, c.payload, angle))
  }

  // What the handlers do.

  /** read_header's handler: a payload is still to be read, or the packet is posted. */
  function HeaderStep(c: Chain): Chain
    requires |c.socketBytes| >= HEADER_SIZE
  {
    var size, rest := GetU16(c.socketBytes[..2]), c.socketBytes[4..];
    var n := PayloadLength(ServerReader, size);
    var c1 := c.(size := size, opcode := GetU16(c.socketBytes[2..4]), socketBytes := rest,
                 outstanding := Without(c.outstanding, HeaderRead));
    if n > 0 then
      c1.(payload := Take(c.payload, n) + Nuls(n - |Take(c.payload, n)|), outstanding := c1.outstanding + [PayloadRead])
    else c1.(outstanding := c1.outstanding + [PostedPacket])
  }

  /** read_payload's handler: the packet is posted. */
  function PayloadStep(c: Chain): Chain
    requires |c.socketBytes| >= PayloadLength(ServerReader, c.size)
  {
    var n := PayloadLength(ServerReader, c.size);
    c.(payload := c.socketBytes[..n], socketBytes := c.socketBytes[n..],
       outstanding := Without(c.outstanding, PayloadRead) + [PostedPacket])
  }

  /** The posted step: process_packet, and only then the next header read. */
  function PostedStep(c: Chain, angle: Text -> Angle, succeeds: bool): Chain {
    var command := PostedCommand(c, angle);
    c.(open := c.open && !command.HangUp?, conn := ConnAfter(c.conn, command, succeeds),
       commands := c.commands + [command], outstanding := Without(c.outstanding, PostedPacket) + [HeaderRead])
  }

  // What they keep.

  /** At most one handler is outstanding, and hanging up closes the socket. */
  predicate OneHandler(c: Chain) {
    && |c.outstanding| <= 1
    && (c.conn.Closed? ==> !c.open)
    && (PayloadRead in c.outstanding ==> PayloadLength(ServerReader, c.size) > 0)
  }

  /** Processed and posted packets are the first of those the bytes make up, in order, and while the
      chain is alive nothing is lost. */
  ghost predicate BytesFit(c: Chain, log: Log) {
    && log.processed <= Frames(ServerReader, log.arrived)
    && (c.outstanding != [] ==> Accounts(log.processed, Posted(c), Unparsed(c), log.arrived))
  }

  /** Commands and buffer are those of the stale reader for the packets processed. */
  ghost predicate BufferFits(c: Chain, log: Log, angle: Text -> Angle) {
    var st := ReadAll(KeepStale, log.processed, Setting(angle, log.verdicts));
    && |log.verdicts| == |log.processed| == |st.commands| && c.commands == st.commands && c.conn == st.conn
    && (HeaderRead in c.outstanding && !c.conn.Closed? ==> c.payload == st.buffer)
    && (PostedPacket in c.outstanding ==> !c.conn.Closed? && c.payload == Filled(KeepStale, st.buffer, Posted(c)[0]))
  }

  ghost predicate Good(c: Chain, log: Log, angle: Text -> Angle) {
    OneHandler(c) && BytesFit(c, log) && BufferFits(c, log, angle)
  }

  lemma OnlyHandler(c: Chain, h: Handler)
    requires OneHandler(c) && h in c.outstanding
    ensures c.outstanding == [h] && Without(c.outstanding, h) == []
  {
    assert c.outstanding == [c.outstanding[0]];
  }

  lemma ArrivalKeepsGood(c: Chain, log: Log, angle: Text -> Angle, chunk: Text)
    requires Good(c, log, angle)
    ensures Good(c.(socketBytes := c.socketBytes + chunk), log.(arrived := log.arrived + chunk), angle)
  {
    var c' := c.(socketBytes := c.socketBytes + chunk);
    MoreFrames(log.arrived, chunk);
    assert Unparsed(c') == Unparsed(c) + chunk;
    if c.outstanding != [] {
      AccountsArrival(log.processed, Posted(c), Unparsed(c), log.arrived, chunk);
    }
  }

  /** After a header exactly one thing is outstanding: the payload's read, or the posted packet with
      the buffer as it was. */
  lemma HeaderArms(c: Chain)
    requires OneHandler(c) && HeaderRead in c.outstanding && |c.socketBytes| >= HEADER_SIZE
    ensures var c' := HeaderStep(c);
            && c'.outstanding == [if PayloadLength(ServerReader, c'.size) > 0 then PayloadRead else PostedPacket]
            && (c'.outstanding == [PostedPacket] ==>
                  c'.payload == c.payload && Posted(c') == [Packet(c'.size, c'.opcode, [])])
            && |c'.socketBytes| < |c.socketBytes|
  {
    OnlyHandler(c, HeaderRead);
  }

  lemma HeaderKeepsBytes(c: Chain, log: Log)
    requires OneHandler(c) && BytesFit(c, log) && HeaderRead in c.outstanding && |c.socketBytes| >= HEADER_SIZE
    ensures BytesFit(HeaderStep(c), log)
  {
    OnlyHandler(c, HeaderRead);
    var all, c' := c.socketBytes, HeaderStep(c);
    HeaderReadsBack(all);
    assert PutU16(c'.size) + PutU16(c'.opcode) + c'.socketBytes == all;
    if PayloadLength(ServerReader, c'.size) == 0 {
      PacketAhead(c'.size, c'.opcode, c'.socketBytes);
      assert c'.socketBytes[..0] == [] && c'.socketBytes[0..] == c'.socketBytes;
      AccountsPacket(log.processed, all, log.arrived);
      assert Posted(c') == [FirstPacket(ServerReader, all)];
    }
  }

  lemma HeaderKeepsGood(c: Chain, log: Log, angle: Text -> Angle)
    requires Good(c, log, angle) && HeaderRead in c.outstanding && c.open && |c.socketBytes| >= HEADER_SIZE
    ensures Good(HeaderStep(c), log, angle)
  {
    OnlyHandler(c, HeaderRead);
    HeaderKeepsBytes(c, log);
  }

  /** After a payload exactly the packet is outstanding, with that payload. */
  lemma PayloadArms(c: Chain)
    requires OneHandler(c) && PayloadRead in c.outstanding && |c.socketBytes| >= PayloadLength(ServerReader, c.size)
    ensures var c' := PayloadStep(c);
            && c'.outstanding == [PostedPacket] && Posted(c') == [Packet(c'.size, c'.opcode, c'.payload)]
            && |c'.socketBytes| < |c.socketBytes|
  {
    OnlyHandler(c, PayloadRead);
  }

  lemma PayloadKeepsGood(c: Chain, log: Log, angle: Text -> Angle)
    requires Good(c, log, angle) && PayloadRead in c.outstanding && c.open
    requires |c.socketBytes| >= PayloadLength(ServerReader, c.size)
    ensures Good(PayloadStep(c), log, angle)
  {
    OnlyHandler(c, PayloadRead);
    PacketAhead(c.size, c.opcode, c.socketBytes);
    AccountsPacket(log.processed, Unparsed(c), log.arrived);
    assert Posted(PayloadStep(c)) == [FirstPacket(ServerReader, Unparsed(c))];
  }

  /** The log once the posted packet is done. */
  function Logged(c: Chain, log: Log, succeeds: bool): Log {
    log.(processed := log.processed + Posted(c), verdicts := log.verdicts + [succeeds])
  }

  lemma PostedKeepsGood(c: Chain, log: Log, angle: Text -> Angle, succeeds: bool)
    requires Good(c, log, angle) && PostedPacket in c.outstanding
    ensures Good(PostedStep(c, angle, succeeds), Logged(c, log, succeeds), angle)
  {
    OnlyHandler(c, PostedPacket);
    var p := Posted(c)[0];
    OneMoreVerdict(log.processed, p, Setting(angle, log.verdicts), succeeds);
    AccountsDone(log.processed, p, Unparsed(c), log.arrived);
  }

  lemma AllProcessed(c: Chain, log: Log)
    requires OneHandler(c) && BytesFit(c, log) && !CanRun(c) && c.open && c.outstanding != []
    ensures log.processed == Frames(ServerReader, log.arrived)
  {
    assert c.outstanding == [c.outstanding[0]];
    if c.outstanding[0] == PayloadRead {
      HeaderAhead(c.size, c.opcode, c.socketBytes);
    }
    assert !HasPacket(ServerReader, Unparsed(c));
    assert log.processed + [] + [] == log.processed;
  }

  predicate CanRun(c: Chain) {
    || PostedPacket in c.outstanding
    || (c.open && HeaderRead in c.outstanding && |c.socketBytes| >= HEADER_SIZE)
    || (c.open && PayloadRead in c.outstanding && |c.socketBytes| >= PayloadLength(ServerReader, c.size))
  }

  /** Whichever read is armed completes. */
  function ReadStep(c: Chain): Chain
    requires CanRun(c) && PostedPacket !in c.outstanding
  {
    if HeaderRead in c.outstanding && |c.socketBytes| >= HEADER_SIZE then HeaderStep(c) else PayloadStep(c)
  }

  /** The chain is alive, and the socket is open unless the dispatcher has hung up. */
  predicate Whole(c: Chain) {
    c.outstanding != [] && (c.open <==> !c.conn.Closed?)
  }

  /** The recorded outcomes of auth packets are those of the strand: `outcome(k)` is the k-th packet's. */
  predicate Said(log: Log, outcome: nat -> bool) {
    forall k | 0 <= k < |log.verdicts| :: log.verdicts[k] == outcome(k)
  }

  lemma PostedKeepsWhole(c: Chain, log: Log, angle: Text -> Angle, succeeds: bool)
    requires Good(c, log, angle) && PostedPacket in c.outstanding
    ensures Whole(c) ==> Whole(PostedStep(c, angle, succeeds))
  {
  }

  lemma OneMoreOutcome(c: Chain, log: Log, angle: Text -> Angle, outcome: nat -> bool)
    requires Good(c, log, angle)
    ensures Said(log, outcome) ==> Said(Logged(c, log, outcome(|c.commands|)), outcome)
  {
  }

  /** What can happen to a connection from outside: this side closes the socket, or an armed read fails. */
  datatype Cut = NoCut | Closing | ReadFailure

  function AfterCut(c: Chain, cut: Cut): Chain {
    match cut
    case NoCut => c
    case Closing => c.(open := false)
    case ReadFailure =>
      if HeaderRead in c.outstanding || PayloadRead in c.outstanding then c.(outstanding := []) else c
  }

  /** PlayerSession's read chain as it runs. */
  class SessionReader {
    const angle: Text -> Angle
    var socketBytes: Text
    var size: U16
    var opcode: U16
    var payload: Text
    var outstanding: seq<Handler>
    var open: bool
    var conn: Conn
    var commands: seq<Command>
    ghost var log: Log

    constructor (angle: Text -> Angle)
      ensures Valid() && log == Log([], [], []) && this.angle == angle
      ensures Now().open && Now().conn == Waiting && Now().outstanding == [HeaderRead]
    {
      this.angle := angle;
      socketBytes, size, opcode, payload := [], HEADER_SIZE, 0, [];
      outstanding, open, conn, commands := [HeaderRead], true, Waiting, [];
      log := Log([], [], []);
    }

    function Now(): Chain
      reads this
    {
      Chain(outstanding, size, opcode, payload, socketBytes, open, conn, commands)
    }

    ghost predicate Valid()
      reads this
    {
      Good(Now(), log, angle)
    }

    /** Bytes come in. */
    method Arrive(chunk: Text)
      requires Valid()
      modifies this`socketBytes, this`log
      ensures Valid() && log == old(log).(arrived := old(log).arrived + chunk)
      ensures Now() == old(Now()).(socketBytes := old(socketBytes) + chunk)
    {
      ArrivalKeepsGood(Now(), log, angle, chunk);
      socketBytes := socketBytes + chunk;
      log := log.(arrived := log.arrived + chunk);
    }

    /** The socket is closed from this side, by the write handler after an AUTH_FAIL. */
    method Close()
      requires Valid()
      modifies this`open
      ensures Valid() && Now() == old(Now()).(open := false)
    {
      open := false;
    }

    /** A handler is armed or posted. */
    method Arm(h: Handler)
      modifies this`outstanding
      ensures outstanding == old(outstanding) + [h]
    {
      outstanding := outstanding + [h];
    }

    /** A handler is taken from those outstanding, to run. */
    method Begin(h: Handler)
      modifies this`outstanding
      ensures outstanding == Without(old(outstanding), h)
    {
      outstanding := Without(outstanding, h);
    }

    /** An armed read completes with an error: nothing is armed any more. */
    method OnReadError(h: Handler)
      requires Valid() && h in outstanding && h != PostedPacket
      modifies this`outstanding
      ensures Valid() && Now() == old(Now()).(outstanding := [])
    {
      OnlyHandler(Now(), h);
      Begin(h);
    }

    /** read_header's handler, on the buffers. */
    method TakeHeader()
      requires |socketBytes| >= HEADER_SIZE
      modifies this`socketBytes, this`size, this`opcode, this`payload, this`outstanding
      ensures Now() == HeaderStep(old(Now()))
    {
      Begin(HeaderRead);
      size, opcode := GetU16(socketBytes[..2]), GetU16(socketBytes[2..4]);
      socketBytes := socketBytes[4..];
      var n := PayloadLength(ServerReader, size);
      if n > 0 {
        payload := Take(payload, n) + Nuls(n - |Take(payload, n)|);
        Arm(PayloadRead);
      } else {
        Arm(PostedPacket);
      }
    }

    /** read_header's handler. */
    method OnHeader()
      requires Valid() && HeaderRead in outstanding && open && |socketBytes| >= HEADER_SIZE
      modifies this`socketBytes, this`size, this`opcode, this`payload, this`outstanding
      ensures Valid() && Now() == HeaderStep(old(Now())) && |socketBytes| < old(|socketBytes|)
      ensures outstanding == [if PayloadLength(ServerReader, size) > 0 then PayloadRead else PostedPacket]
      ensures outstanding == [PostedPacket] ==> payload == old(payload) && Posted(Now()) == [Packet(size, opcode, [])]
    {
      HeaderArms(Now());
      HeaderKeepsGood(Now(), log, angle);
      TakeHeader();
    }

    /** read_payload's handler, on the buffers. */
    method TakePayload()
      requires |socketBytes| >= PayloadLength(ServerReader, size)
      modifies this`socketBytes, this`payload, this`outstanding
      ensures Now() == PayloadStep(old(Now()))
    {
      Begin(PayloadRead);
      var n := PayloadLength(ServerReader, size);
      payload := socketBytes[..n];
      socketBytes := socketBytes[n..];
      Arm(PostedPacket);
    }

    /** read_payload's handler. */
    method OnPayload()
      requires Valid() && PayloadRead in outstanding && open && |socketBytes| >= PayloadLength(ServerReader, size)
      modifies this`socketBytes, this`payload, this`outstanding
      ensures Valid() && Now() == PayloadStep(old(Now())) && |socketBytes| < old(|socketBytes|)
      ensures outstanding == [PostedPacket] && Posted(Now()) == [Packet(size, opcode, payload)]
    {
      PayloadArms(Now());
      PayloadKeepsGood(Now(), log, angle);
      TakePayload();
    }

    /** process_packet, as far as this connection goes.  `succeeds` says whether an auth packet
        authenticates the session. */
    method Process(succeeds: bool)
      modifies this`open, this`conn, this`commands
      ensures commands == old(commands) + [old(PostedCommand(Now(), angle))]
      ensures conn == ConnAfter(old(conn), old(PostedCommand(Now(), angle)), succeeds)
      ensures open == (old(open) && !old(PostedCommand(Now(), angle)).HangUp?)
    {
      var c := CommandOf(conn, ServerReads(opcode, payload, angle));
      if c.HangUp? {
        open := false;
        conn := Closed;
      } else if c.Authenticate? && succeeds {
        conn := Playing;
      }
      commands := commands + [c];
    }

    /** The posted step. */
    method OnPosted(succeeds: bool)
      requires Valid() && PostedPacket in outstanding
      modifies this`outstanding, this`open, this`conn, this`commands, this`log
      ensures Valid() && Now() == PostedStep(old(Now()), angle, succeeds) && outstanding == [HeaderRead]
      ensures log == Logged(old(Now()), old(log), succeeds)
    {
      OnlyHandler(Now(), PostedPacket);
      PostedKeepsGood(Now(), log, angle, succeeds);
      log := Logged(Now(), log, succeeds);
      Begin(PostedPacket);
      Process(succeeds);
      Arm(HeaderRead);
    }

    /** An armed read completes. */
    method Read()
      requires Valid() && CanRun(Now()) && PostedPacket !in outstanding
      modifies this`socketBytes, this`size, this`opcode, this`payload, this`outstanding
      ensures Valid() && |socketBytes| < old(|socketBytes|) && outstanding != []
      ensures Now() == ReadStep(old(Now()))
    {
      if HeaderRead in outstanding && |socketBytes| >= HEADER_SIZE {
        OnHeader();
      } else {
        OnPayload();
      }
    }

    /** The posted step, with the strand's outcome for this packet. */
    method OnPostedWith(outcome: nat -> bool)
      requires Valid() && PostedPacket in outstanding
      modifies this`outstanding, this`open, this`conn, this`commands, this`log
      ensures Valid() && log.arrived == old(log.arrived) && outstanding == [HeaderRead]
      ensures old(Whole(Now())) ==> Whole(Now())
      ensures old(Said(log, outcome)) ==> Said(log, outcome)
    {
      PostedKeepsWhole(Now(), log, angle, outcome(|commands|));
      OneMoreOutcome(Now(), log, angle, outcome);
      OnPosted(outcome(|commands|));
    }

    /** One handler runs. */
    method Run(outcome: nat -> bool)
      requires Valid() && CanRun(Now())
      modifies this
      ensures Valid() && log.arrived == old(log.arrived) && outstanding != []
      ensures old(Whole(Now())) ==> Whole(Now())
      ensures old(Said(log, outcome)) ==> Said(log, outcome)
      ensures |socketBytes| < old(|socketBytes|) ||
              (|socketBytes| == old(|socketBytes|) && PostedPacket in old(outstanding) && PostedPacket !in outstanding)
    {
      if PostedPacket in outstanding {
        OnPostedWith(outcome);
      } else {
        Read();
      }
    }

    /** Every handler that can run does.  A session still open, with its chain intact, has then
        processed every whole packet that arrived. */
    method Settle(outcome: nat -> bool)
      requires Valid()
      modifies this
      ensures Valid() && log.arrived == old(log.arrived)
      ensures old(Whole(Now())) ==> Whole(Now())
      ensures old(Said(log, outcome)) ==> Said(log, outcome)
      ensures open && outstanding != [] ==> log.processed == Frames(ServerReader, log.arrived)
    {
      while CanRun(Now())
        invariant Valid() && log.arrived == old(log.arrived)
        invariant old(Whole(Now())) ==> Whole(Now())
        invariant old(Said(log, outcome)) ==> Said(log, outcome)
        decreases |socketBytes|, if PostedPacket in outstanding then 1 else 0
      {
        Run(outcome);
      }
      if open && outstanding != [] {
        AllProcessed(Now(), log);
      }
    }

    /** The socket may be closed, or an armed read may fail, at any time. */
    method Interrupt(cut: Cut)
      requires Valid()
      modifies this`open, this`outstanding
      ensures Valid() && Now() == AfterCut(old(Now()), cut)
    {
      match cut
      case NoCut =>
      case Closing => Close();
      case ReadFailure =>
        if HeaderRead in outstanding {
          OnReadError(HeaderRead);
        } else if PayloadRead in outstanding {
          OnReadError(PayloadRead);
        }
    }
  }

  /** What happens after a chunk: every handler that can run does, or at most one, and then perhaps the
      connection is cut. */
  datatype Meanwhile = Meanwhile(settles: bool, cut: Cut)

  predicate Uncut(script: seq<Meanwhile>) {
    forall n | 0 <= n < |script| :: script[n].cut == NoCut
  }

  /** Once a reader has hung up, later packets change nothing. */
  lemma {:induction false} ClosedStays(ps: seq<Packet>, n: nat, env: Setting)
    requires n <= |ps| && ReadAll(KeepStale, ps[..n], env).conn.Closed?
    ensures ReadAll(KeepStale, ps, env) == ReadAll(KeepStale, ps[..n], env)
    decreases |ps|
  {
    if n == |ps| {
      assert ps[..n] == ps;
    } else {
      var front := ps[..|ps| - 1];
      assert front[..n] == ps[..n];
      ClosedStays(front, n, env);
    }
  }

  /** A chain that was never cut has, when nothing can run any more, issued the commands for all whole
      packets. */
  lemma WholeReadsAll(c: Chain, log: Log, angle: Text -> Angle)
    requires Good(c, log, angle) && Whole(c)
    requires c.open ==> log.processed == Frames(ServerReader, log.arrived)
    ensures c.commands ==
            ReadAll(KeepStale, Frames(ServerReader, log.arrived), Setting(angle, log.verdicts)).commands
  {
    if !c.open {
      var all := Frames(ServerReader, log.arrived);
      assert all[..|log.processed|] == log.processed;
      ClosedStays(all, |log.processed|, Setting(angle, log.verdicts));
    }
  }

  /** One chunk and what happens after it. */
  method FeedOne(session: SessionReader, chunk: Text, m: Meanwhile, outcome: nat -> bool)
    requires session.Valid() && Said(session.log, outcome)
    modifies session
    ensures session.Valid() && session.log.arrived == old(session.log.arrived) + chunk && Said(session.log, outcome)
    ensures m.cut == NoCut && old(Whole(session.Now())) ==> Whole(session.Now())
  {
    session.Arrive(chunk);
    if m.settles {
      session.Settle(outcome);
    } else if CanRun(session.Now()) {
      session.Run(outcome);
    }
    session.Interrupt(m.cut);
  }

  /** A connection's bytes, in any chunks, with any number of handlers running between them, and the
      socket closed or a read failing at any time.  The packets processed are always the first of
      those the bytes make up, all of them as long as the session is open and its chain intact; and
      if nobody cuts the connection the commands issued are those for all of them. */
  method Feed(session: SessionReader, chunks: seq<Text>, script: seq<Meanwhile>, outcome: nat -> bool)
    requires session.Valid() && session.log == Log([], [], []) && |script| == |chunks|
    modifies session
    ensures session.Valid() && session.log.arrived == Flatten(chunks) && Said(session.log, outcome)
    ensures session.log.processed <= Frames(ServerReader, Flatten(chunks))
    ensures session.commands ==
            ReadAll(KeepStale, session.log.processed, Setting(session.angle, session.log.verdicts)).commands
    ensures session.open && session.outstanding != [] ==> session.log.processed == Frames(ServerReader, Flatten(chunks))
    ensures Uncut(script) && old(Whole(session.Now())) ==>
              && (session.open <==> !session.conn.Closed?)
              && session.commands ==
                 ReadAll(KeepStale, Frames(ServerReader, Flatten(chunks)),
                         Setting(session.angle, session.log.verdicts)).commands
  {
    for n := 0 to |chunks|
      invariant session.Valid() && session.log.arrived == Flatten(chunks[..n]) && Said(session.log, outcome)
      invariant Uncut(script) && old(Whole(session.Now())) ==> Whole(session.Now())
    {
      assert chunks[..n + 1][..n] == chunks[..n];
      FeedOne(session, chunks[n], script[n], outcome);
    }
    assert chunks[..|chunks|] == chunks;
    session.Settle(outcome);
    if Whole(session.Now()) {
      WholeReadsAll(session.Now(), session.log, session.angle);
    }
  }

  /** Processed packets of a client whose only packets without a payload are pings. */
  lemma CleanPrefix(ps: seq<Packet>, done: seq<Packet>, env: Setting)
    requires done <= ps && forall p | p in ps && p.payload == [] :: p.opcode == CMSG_PING
    ensures ReadAll(KeepStale, done, env).commands == ReadAll(ClearFirst, done, env).commands
    ensures ReadAll(ClearFirst, done, env).commands <= ReadAll(ClearFirst, ps, env).commands
  {
    assert forall p | p in done :: p in ps;
    PingsAreHarmless(done, env);
    PrefixReads(ClearFirst, ps, |done|, env);
    assert ps[..|done|] == done;
  }

  /** A whole connection on which only pings lack a payload.  Whatever the chunks and whenever it
      ends, the server has issued the commands of a reader with a clean buffer for the first packets
      the client sent, one each and in order; for all of them if the session is still open, and all the
      commands there are if nobody cut the connection. */
  method Serve(session: SessionReader, ps: seq<Packet>, chunks: seq<Text>, script: seq<Meanwhile>,
               outcome: nat -> bool)
    requires session.Valid() && session.log == Log([], [], []) && |script| == |chunks|
    requires forall p | p in ps :: WellFormed(p) && (p.payload == [] ==> p.opcode == CMSG_PING)
    requires Flatten(chunks) == EncodeAll(ps)
    modifies session
    ensures session.Valid() && session.log.processed <= ps && Said(session.log, outcome)
    ensures session.commands ==
            ReadAll(ClearFirst, session.log.processed, Setting(session.angle, session.log.verdicts)).commands
    ensures session.commands <= ReadAll(ClearFirst, ps, Setting(session.angle, session.log.verdicts)).commands
    ensures session.open && session.outstanding != [] ==> session.log.processed == ps
    ensures Uncut(script) && old(Whole(session.Now())) ==>
              && (session.open <==> !session.conn.Closed?)
              && session.commands == ReadAll(ClearFirst, ps, Setting(session.angle, session.log.verdicts)).commands
  {
    FramesOfEncoded(ServerReader, ps);
    Feed(session, chunks, script, outcome);
    CleanPrefix(ps, session.log.processed, Setting(session.angle, session.log.verdicts));
    PingsAreHarmless(ps, Setting(session.angle, session.log.verdicts));
  }
}
