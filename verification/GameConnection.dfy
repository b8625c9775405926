/** One player's connection from its bytes to the strand: the read chain of module ServerReader
    posting to the strand of module Strand.  The packets a client writes become the events of that
    session, in order, whatever else the server does in between. */
module GameConnection {
  import opened Protocol
  import opened Database
  import opened System
  import opened Wire
  import opened Framing
  import opened R = ServerReader
  import World
  import S = Strand
  import V = Servers
  import L = LoginServer

  /** The requests session `i` made in a run. */
  function Heard(run: seq<Event>, i: World.SessionId): seq<Request> {
    if run == [] then []
    else
      var front, ev := Heard(run[..|run| - 1], i), run[|run| - 1];
      if ev.Receive? && ev.session == i then front + [ev.request] else front
  }

  /** The requests a list of packets amounts to, each read from the buffer as the server keeps it. */
  function Dispatches(ps: seq<Packet>, angle: Text -> Angle): seq<Request> {
    if ps == [] then []
    else Dispatches(ps[..|ps| - 1], angle) + [ServerReads(ps[|ps| - 1].opcode, LastPayload(ps, |ps|), angle)]
  }

  /** The requests as the client meant them: each packet read from its own payload. */
  function Meant(ps: seq<Packet>, angle: Text -> Angle): (rs: seq<Request>)
    ensures |rs| == |ps|
    ensures forall k | 0 <= k < |ps| :: rs[k] == ServerReads(ps[k].opcode, ps[k].payload, angle)
  {
    seq(|ps|, k requires 0 <= k < |ps| => ServerReads(ps[k].opcode, ps[k].payload, angle))
  }

  lemma HeardOneMore(run: seq<Event>, ev: Event, i: World.SessionId)
    ensures Heard(run + [ev], i) == Heard(run, i) + if ev.Receive? && ev.session == i then [ev.request] else []
  {
    assert (run + [ev])[..|run|] == run;
  }

  /** With pings the only packets without a payload, every packet is taken as it was meant. */
  lemma {:induction false} DispatchedAsMeant(ps: seq<Packet>, angle: Text -> Angle)
    requires forall p | p in ps && p.payload == [] :: p.opcode == CMSG_PING
    ensures Dispatches(ps, angle) == Meant(ps, angle)
  {
    if ps != [] {
      var front, p := ps[..|ps| - 1], ps[|ps| - 1];
      assert forall q | q in front :: q in ps;
      assert p in ps;
      DispatchedAsMeant(front, angle);
      assert Meant(ps, angle) == Meant(front, angle) + [ServerReads(p.opcode, p.payload, angle)];
    }
  }

  /** The connection as the reader sees it is the session as the server sees it. */
  predicate Mirrors(c: Chain, session: World.Session) {
    && (c.conn.Closed? <==> !session.open)
    && (c.conn.Waiting? ==> session.phase == World.WaitingForAuth)
    && (c.conn.Playing? ==> session.phase == World.Authenticated)
    && (c.outstanding != [] ==> session.alive)
  }

  /** The event a posted packet becomes. */
  function EventOf(c: Chain, i: World.SessionId, serial: nat, fault: Fault, angle: Text -> Angle): Event {
    Receive(i, ServerReads(c.opcode, c.payload, angle), serial, fault)
  }

  lemma PostedIsEnabled(x: State, c: Chain, i: World.SessionId, serial: nat, fault: Fault, angle: Text -> Angle)
    requires i < |x.server.sessions| && Mirrors(c, x.server.sessions[i]) && c.outstanding != [] && !c.conn.Closed?
    ensures Enabled(x, EventOf(c, i, serial, fault, angle))
  {
  }

  /** What a packet does to its own session. */
  lemma OwnPacket(x: State, ev: Event)
    requires ev.Receive? && Enabled(x, ev)
    ensures |Step(x, ev).server.sessions| == |x.server.sessions| && Step(x, ev).clock == x.clock
    ensures var s, s' := x.server.sessions[ev.session], Step(x, ev).server.sessions[ev.session];
            && s'.alive == s.alive
            && (s.phase != World.WaitingForAuth ==> s'.phase == s.phase && s'.open == s.open)
            && (s.phase == World.WaitingForAuth ==> s'.open == (s.open && ev.request.GameAuth?))
            && (s.phase == World.WaitingForAuth && !ev.request.GameAuth? ==> s'.phase == s.phase)
            && (s'.phase == s.phase || (ev.request.GameAuth? && s'.phase == World.Authenticated))
  {
  }

  lemma PostedMirrors(x: State, c: Chain, i: World.SessionId, serial: nat, fault: Fault, angle: Text -> Angle)
    requires i < |x.server.sessions| && Mirrors(c, x.server.sessions[i])
    requires OneHandler(c) && PostedPacket in c.outstanding && !c.conn.Closed?
    ensures Enabled(x, EventOf(c, i, serial, fault, angle))
    ensures var x' := Step(x, EventOf(c, i, serial, fault, angle));
            && |x'.server.sessions| == |x.server.sessions|
            && Mirrors(PostedStep(c, angle, x'.server.sessions[i].phase == World.Authenticated), x'.server.sessions[i])
  {
    PostedIsEnabled(x, c, i, serial, fault, angle);
    OwnPacket(x, EventOf(c, i, serial, fault, angle));
  }

  /** Events of others leave a session's phase and socket alone, and only its own drop ends it. */
  lemma OthersLeaveSession(x: State, ev: Event, i: World.SessionId)
    requires i < |x.server.sessions| && !(ev.Receive? && ev.session == i)
    ensures i < |Step(x, ev).server.sessions|
    ensures var s, s' := x.server.sessions[i], Step(x, ev).server.sessions[i];
            && s'.phase == s.phase && s'.open == s.open
            && (ev != DropSession(i) ==> s'.alive == s.alive)
  {
  }

  /** State `x`, reached by `run`, and the read chain agree about session `i`: its phase, its socket,
      and the requests it has made. */
  ghost predicate Agree(x: State, run: seq<Event>, i: World.SessionId, c: Chain, log: Log, angle: Text -> Angle) {
    && i < |x.server.sessions| && Mirrors(c, x.server.sessions[i])
    && Heard(run, i) == Dispatches(log.processed, angle)
  }

  lemma OtherAgrees(x: State, run: seq<Event>, ev: Event, y: State, i: World.SessionId, c: Chain, log: Log,
                    angle: Text -> Angle)
    requires Agree(x, run, i, c, log, angle) && Leads(x, ev, y)
    requires !(ev.Receive? && ev.session == i) && (ev == DropSession(i) ==> c.outstanding == [])
    ensures Agree(y, run + [ev], i, c, log, angle)
  {
    LeadsIsStep(x, ev, y);
    HeardOneMore(run, ev, i);
    OthersLeaveSession(x, ev, i);
  }

  /** The request of the posted packet is the next of those the packets amount to. */
  lemma PostedIsNextDispatch(c: Chain, log: Log, angle: Text -> Angle)
    requires Good(c, log, angle) && PostedPacket in c.outstanding
    ensures Dispatches(log.processed + Posted(c), angle) ==
            Dispatches(log.processed, angle) + [ServerReads(c.opcode, c.payload, angle)]
  {
    var ps, p := log.processed, Posted(c)[0];
    assert (ps + [p])[..|ps|] == ps;
    BufferIsLastPayload(ps, Setting(angle, log.verdicts));
    LastPayloadOfPrefix(ps, p, |ps|);
  }

  lemma PostedAgrees(x: State, run: seq<Event>, i: World.SessionId, serial: nat, fault: Fault,
                     c: Chain, log: Log, angle: Text -> Angle)
    requires Agree(x, run, i, c, log, angle) && Good(c, log, angle) && PostedPacket in c.outstanding
    ensures Enabled(x, EventOf(c, i, serial, fault, angle))
    ensures var ev := EventOf(c, i, serial, fault, angle);
            && i < |Step(x, ev).server.sessions|
            && var succeeds := Step(x, ev).server.sessions[i].phase == World.Authenticated;
               Agree(Step(x, ev), run + [ev], i, PostedStep(c, angle, succeeds), Logged(c, log, succeeds), angle)
  {
    PostedMirrors(x, c, i, serial, fault, angle);
    PostedIsNextDispatch(c, log, angle);
    HeardOneMore(run, EventOf(c, i, serial, fault, angle), i);
  }

  lemma PostedLeads(x: State, run: seq<Event>, i: World.SessionId, serial: nat, fault: Fault,
                    c: Chain, log: Log, angle: Text -> Angle) returns (y: State)
    requires Agree(x, run, i, c, log, angle) && Good(c, log, angle) && PostedPacket in c.outstanding
    ensures var ev := EventOf(c, i, serial, fault, angle);
            && Enabled(x, ev) && Leads(x, ev, y) && y.logins == x.logins
            && i < |y.server.sessions|
            && var succeeds := y.server.sessions[i].phase == World.Authenticated;
               Agree(y, run + [ev], i, PostedStep(c, angle, succeeds), Logged(c, log, succeeds), angle)
  {
    var ev := EventOf(c, i, serial, fault, angle);
    PostedAgrees(x, run, i, serial, fault, c, log, angle);
    y := Step(x, ev);
    LeadsIsStep(x, ev, y);
    V.HandlersKeepLogins(x, ev, y);
  }

  /** What happens next on the connection, or elsewhere on the servers. */
  datatype Move =
    | Bytes(chunk: Text)
    | Read
    | Process(serial: nat, fault: Fault)
    | Interrupt(cut: Cut)
    | Elsewhere(t: V.Turn)

  function BytesIn(script: seq<Move>): Text {
    if script == [] then [] else (if script[0].Bytes? then script[0].chunk else []) + BytesIn(script[1..])
  }

  lemma BytesInFirst(before: Text, script: seq<Move>)
    requires script != []
    ensures before + (if script[0].Bytes? then script[0].chunk else []) + BytesIn(script[1..]) ==
            before + BytesIn(script)
  {
    var first, rest := if script[0].Bytes? then script[0].chunk else [], BytesIn(script[1..]);
    assert before + (first + rest) == before + first + rest;
  }

  /** The turn is another's: not a packet of session `i`, and not its end while it has a handler left. */
  predicate Foreign(t: V.Turn, i: World.SessionId, c: Chain) {
    && !(t.Packet? && t.session == i)
    && !(t.Leave? && t.session == i && c.outstanding != [])
  }

  /** What one entry of a script does, going through the states `xs` by the events `evs`: the read chain
      of session `i` goes from `c` to `c'`.  What is not possible then is skipped. */
  ghost predicate Moved(m: Move, xs: seq<State>, evs: seq<Event>, c: Chain, c': Chain, i: World.SessionId,
                        angle: Text -> Angle, verify: L.Verifier)
    requires |xs| == |evs| + 1
  {
    match m
    case Bytes(chunk) => evs == [] && c' == c.(socketBytes := c.socketBytes + chunk)
    case Read => evs == [] && c' == if CanRun(c) && PostedPacket !in c.outstanding then ReadStep(c) else c
    case Interrupt(cut) => evs == [] && c' == AfterCut(c, cut)
    case Process(serial, fault) =>
      if PostedPacket in c.outstanding then
        && evs == [EventOf(c, i, serial, fault, angle)] && i < |xs[1].server.sessions|
        && c' == PostedStep(c, angle, xs[1].server.sessions[i].phase == World.Authenticated)
      else evs == [] && c' == c
    case Elsewhere(t) =>
      c' == c &&
      if Foreign(t, i, c) && V.Offered(t, xs[0]) then |evs| == 1 && V.Serves(t, evs[0], xs[0], verify) else evs == []
  }

  /** Run and trace go on by the entry. */
  ghost predicate MoveTaken(m: Move, trace: seq<State>, run: seq<Event>, trace': seq<State>, run': seq<Event>,
                            c: Chain, c': Chain, i: World.SessionId, angle: Text -> Angle, verify: L.Verifier)
    requires |trace| == |run| + 1
  {
    && trace <= trace' && run <= run' && |trace'| == |run'| + 1
    && Moved(m, trace'[|run|..], run'[|run|..], c, c', i, angle, verify)
  }

  /** Run, trace and read chain are what the script brings about, entry by entry, from chain `c0`. */
  ghost predicate Driven(script: seq<Move>, trace: seq<State>, run: seq<Event>, c0: Chain, c: Chain,
                         i: World.SessionId, angle: Text -> Angle, verify: L.Verifier)
    decreases |script|, 1
  {
    |trace| == |run| + 1 &&
    if script == [] then run == [] && c == c0
    else
      exists k: nat, c1: Chain ::
        && DrivenBefore(script, trace, run, k, c0, c1, i, angle, verify)
        && MoveTaken(script[|script| - 1], trace[..k + 1], run[..k], trace, run, c1, c, i, angle, verify)
  }

  /** The script short of its last entry brought about the first `k` events. */
  ghost predicate DrivenBefore(script: seq<Move>, trace: seq<State>, run: seq<Event>, k: nat, c0: Chain, c: Chain,
                               i: World.SessionId, angle: Text -> Angle, verify: L.Verifier)
    requires script != [] && |trace| == |run| + 1
    decreases |script|, 0
  {
    k <= |run| && Driven(script[..|script| - 1], trace[..k + 1], run[..k], c0, c, i, angle, verify)
  }

  lemma DrivenOn(script: seq<Move>, n: nat, trace: seq<State>, run: seq<Event>, trace': seq<State>, run': seq<Event>,
                 c0: Chain, c: Chain, c': Chain, i: World.SessionId, angle: Text -> Angle, verify: L.Verifier)
    requires n < |script| && |trace| == |run| + 1
    requires Driven(script[..n], trace, run, c0, c, i, angle, verify)
    requires MoveTaken(script[n], trace, run, trace', run', c, c', i, angle, verify)
    ensures Driven(script[..n + 1], trace', run', c0, c', i, angle, verify)
  {
    var more := script[..n + 1];
    assert more[..|more| - 1] == script[..n];
    assert run'[..|run|] == run && trace'[..|run| + 1] == trace;
    assert DrivenBefore(more, trace', run', |run|, c0, c, i, angle, verify);
  }

  /** Nobody cuts the connection. */
  predicate Unbroken(script: seq<Move>) {
    forall k | 0 <= k < |script| && script[k].Interrupt? :: script[k].cut == NoCut
  }

  lemma UnbrokenRest(script: seq<Move>)
    requires script != [] && Unbroken(script)
    ensures Unbroken(script[1..]) && (script[0].Interrupt? ==> script[0].cut == NoCut)
  {
  }

  lemma MovedKeepsWhole(m: Move, xs: seq<State>, evs: seq<Event>, c: Chain, c': Chain, log: Log, i: World.SessionId,
                        angle: Text -> Angle, verify: L.Verifier)
    requires |xs| == |evs| + 1 && Moved(m, xs, evs, c, c', i, angle, verify)
    requires Good(c, log, angle) && Whole(c) && (m.Interrupt? ==> m.cut == NoCut)
    ensures Whole(c')
  {
    if m.Process? && PostedPacket in c.outstanding {
      PostedKeepsWhole(c, log, angle, xs[1].server.sessions[i].phase == World.Authenticated);
    }
  }

  /** What a handler that can run leaves to be done. */
  lemma HandlerShrinks(c: Chain, c': Chain, angle: Text -> Angle, succeeds: bool)
    requires OneHandler(c) && CanRun(c)
    requires c' == if PostedPacket in c.outstanding then PostedStep(c, angle, succeeds) else ReadStep(c)
    ensures |c'.socketBytes| < |c.socketBytes| ||
            (|c'.socketBytes| == |c.socketBytes| && PostedPacket in c.outstanding && PostedPacket !in c'.outstanding)
  {
    if PostedPacket in c.outstanding {
      OnlyHandler(c, PostedPacket);
    } else if HeaderRead in c.outstanding {
      HeaderArms(c);
    }
  }

  lemma HandlerMoved(m: Move, trace: seq<State>, run: seq<Event>, trace': seq<State>, run': seq<Event>,
                     c: Chain, c': Chain, i: World.SessionId, angle: Text -> Angle, verify: L.Verifier)
    requires |trace| == |run| + 1 && MoveTaken(m, trace, run, trace', run', c, c', i, angle, verify)
    requires OneHandler(c) && CanRun(c) && if PostedPacket in c.outstanding then m.Process? else m == Read
    ensures |c'.socketBytes| < |c.socketBytes| ||
            (|c'.socketBytes| == |c.socketBytes| && PostedPacket in c.outstanding && PostedPacket !in c'.outstanding)
  {
    var xs := trace'[|run|..];
    HandlerShrinks(c, c', angle, m.Process? && xs[1].server.sessions[i].phase == World.Authenticated);
  }

  lemma NothingMoved(m: Move, trace: seq<State>, run: seq<Event>, c: Chain, c': Chain, i: World.SessionId,
                     angle: Text -> Angle, verify: L.Verifier)
    requires |trace| == |run| + 1 && Moved(m, [trace[|run|]], [], c, c', i, angle, verify)
    ensures MoveTaken(m, trace, run, trace, run, c, c', i, angle, verify)
  {
    assert trace[|run|..] == [trace[|run|]] && run[|run|..] == [];
  }

  lemma OneMoved(m: Move, trace: seq<State>, run: seq<Event>, ev: Event, y: State, c: Chain, c': Chain,
                 i: World.SessionId, angle: Text -> Angle, verify: L.Verifier)
    requires |trace| == |run| + 1 && Moved(m, [trace[|run|], y], [ev], c, c', i, angle, verify)
    ensures MoveTaken(m, trace, run, trace + [y], run + [ev], c, c', i, angle, verify)
  {
    assert (trace + [y])[|run|..] == [trace[|run|], y] && (run + [ev])[|run|..] == [ev];
  }

  class GameConnection {
    const servers: V.Servers
    const reader: SessionReader
    const i: World.SessionId

    /** A connection just accepted as session `i`. */
    constructor (servers: V.Servers, reader: SessionReader, i: World.SessionId, ghost x: State)
      requires reader.Valid() && reader.log == Log([], [], []) && reader.Now().conn == Waiting
      requires i < |x.server.sessions| && x.server.sessions[i] == World.NEW_SESSION
      ensures Valid(x, []) && this.servers == servers && this.reader == reader && this.i == i
    {
      this.servers, this.reader, this.i := servers, reader, i;
    }

    /** The reader agrees with state `x`, reached by `run`, about its session. */
    ghost predicate Valid(x: State, run: seq<Event>)
      reads reader
    {
      reader.Valid() && Agree(x, run, i, reader.Now(), reader.log, reader.angle)
    }

    /** The state the trace begins with, if the objects of both servers and the reader agree with the one
        it ends with. */
    ghost function Start(trace: seq<State>, run: seq<Event>, clock: int): (x: Option<State>)
      reads reader, servers, servers.strand, servers.strand.game, servers.strand.game.accepted, servers.login,
            servers.login.db, servers.waiting
      ensures x.Some? ==> |trace| == |run| + 1
    {
      if Traced(trace, run) && Valid(trace[|run|], run) && servers.OnCourse(trace[|run|], clock) then Some(trace[0])
      else None
    }

    /** Something else happens on either server.  The session goes only when no handler of it is left. */
    method OnOther(a: V.Action, clock: int, ghost x: State, ghost run: seq<Event>, ghost ev: Event, ghost y: State,
                   ghost c: Chain, ghost log: Log)
      returns (now: int)
      requires servers.OnCourse(x, clock) && servers.Possible(a, x)
      requires ev == servers.EventOf(a, x) && Leads(x, ev, y) && NotMine(ev, c)
      requires Agree(x, run, i, c, log, reader.angle)
      modifies servers`waiting, servers.waiting, servers.strand, servers.strand.game, servers.strand.game.accepted,
               servers.strand.game.db, servers.login
      ensures servers.OnCourse(y, now) && Grown()
      ensures Agree(y, run + [ev], i, c, log, reader.angle)
    {
      OtherAgrees(x, run, ev, y, i, c, log, reader.angle);
      now := servers.Act(a, clock, x, y);
    }

    /** Neither a packet of this session, nor its end while it has a handler left. */
    predicate NotMine(ev: Event, c: Chain) {
      !(ev.Receive? && ev.session == i) && (ev == DropSession(i) ==> c.outstanding == [])
    }

    /** The objects of the servers are the old ones, or new. */
    twostate predicate Grown()
      reads servers, servers.strand.game
    {
      && servers.strand.NothingOld()
      && (servers.waiting == old(servers.waiting) || servers.waiting == null || fresh(servers.waiting))
    }

    /** process_packet on the strand: `ev` is the posted packet. */
    method ProcessOnStrand(ev: Event, clock: int, ghost x: State, ghost y: State) returns (now: int, succeeds: bool)
      requires servers.OnCourse(x, clock) && ev.Receive? && ev.session == i && Enabled(x, ev)
      requires Leads(x, ev, y) && y.logins == x.logins && i < |y.server.sessions|
      modifies servers.strand, servers.strand.game, servers.strand.game.accepted, servers.strand.game.db
      ensures servers.OnCourse(y, now) && servers.strand.NothingOld()
      ensures succeeds == (y.server.sessions[i].phase == World.Authenticated)
    {
      now := servers.OnGame(ev, clock, x, y);
      assert servers.strand.game.State().sessions[i] == servers.strand.connections[i].Snapshot();
      succeeds := servers.strand.connections[i].phase == World.Authenticated;
    }

    /** ... and then the next read is armed. */
    method ReadOn(succeeds: bool, clock: int, ghost x: State)
      requires reader.Valid() && PostedPacket in reader.outstanding && servers.OnCourse(x, clock)
      modifies reader
      ensures servers.OnCourse(x, clock) && reader.Valid()
      ensures reader.Now() == PostedStep(old(reader.Now()), reader.angle, succeeds)
      ensures reader.log == Logged(old(reader.Now()), old(reader.log), succeeds)
    {
      reader.OnPosted(succeeds);
    }

    /** Both: the packet's effect and the read chain's next step. */
    method ProcessAndReadOn(ev: Event, clock: int, ghost x: State, ghost y: State) returns (now: int)
      requires reader.Valid() && PostedPacket in reader.outstanding && servers.OnCourse(x, clock)
      requires ev.Receive? && ev.session == i && Enabled(x, ev)
      requires Leads(x, ev, y) && y.logins == x.logins && i < |y.server.sessions|
      modifies reader, servers.strand, servers.strand.game, servers.strand.game.accepted, servers.strand.game.db
      ensures servers.OnCourse(y, now) && servers.strand.NothingOld() && reader.Valid()
      ensures var succeeds := y.server.sessions[i].phase == World.Authenticated;
              && reader.Now() == PostedStep(old(reader.Now()), reader.angle, succeeds)
              && reader.log == Logged(old(reader.Now()), old(reader.log), succeeds)
    {
      var succeeds;
      now, succeeds := ProcessOnStrand(ev, clock, x, y);
      ReadOn(succeeds, now, y);
    }

    /** The posted packet's handler. */
    method OnPosted(serial: nat, fault: Fault, clock: int, ghost x: State, ghost run: seq<Event>)
      returns (now: int, ghost ev: Event, ghost y: State)
      requires Valid(x, run) && servers.OnCourse(x, clock) && PostedPacket in reader.outstanding
      modifies reader, servers.strand, servers.strand.game, servers.strand.game.accepted, servers.strand.game.db
      ensures ev == EventOf(old(reader.Now()), i, serial, fault, reader.angle) && Enabled(x, ev) && Leads(x, ev, y)
      ensures Valid(y, run + [ev]) && servers.OnCourse(y, now) && Grown()
      ensures reader.Now() == PostedStep(old(reader.Now()), reader.angle,
                                         y.server.sessions[i].phase == World.Authenticated)
      ensures reader.log == Logged(old(reader.Now()), old(reader.log),
                                   y.server.sessions[i].phase == World.Authenticated)
    {
      var e := Receive(i, ServerReads(reader.opcode, reader.payload, reader.angle), serial, fault);
      ev := e;
      y := PostedLeads(x, run, i, serial, fault, reader.Now(), reader.log, reader.angle);
      now := ProcessAndReadOn(e, clock, x, y);
    }

    /** Bytes arrive. */
    method OnBytes(chunk: Text, ghost x: State, ghost run: seq<Event>)
      requires Valid(x, run)
      modifies reader
      ensures Valid(x, run) && reader.log.arrived == old(reader.log.arrived) + chunk
      ensures reader.Now() == old(reader.Now()).(socketBytes := old(reader.socketBytes) + chunk)
    {
      reader.Arrive(chunk);
    }

    /** An armed read completes. */
    method OnRead(ghost x: State, ghost run: seq<Event>)
      requires Valid(x, run) && CanRun(reader.Now()) && PostedPacket !in reader.outstanding
      modifies reader
      ensures Valid(x, run) && reader.log == old(reader.log) && |reader.socketBytes| < old(|reader.socketBytes|)
      ensures reader.Now() == ReadStep(old(reader.Now()))
    {
      reader.Read();
    }

    /** The socket is closed, or an armed read fails. */
    method OnInterrupt(cut: Cut, ghost x: State, ghost run: seq<Event>)
      requires Valid(x, run)
      modifies reader
      ensures Valid(x, run) && reader.log == old(reader.log) && reader.Now() == AfterCut(old(reader.Now()), cut)
    {
      reader.Interrupt(cut);
    }

    lemma ForeignIsNotMine(t: V.Turn, a: V.Action, x: State, c: Chain)
      requires Foreign(t, i, c) && servers.Possible(a, x)
      requires V.Serves(t, servers.EventOf(a, x), x, servers.login.verify)
      ensures NotMine(servers.EventOf(a, x), c)
    {
    }

    /** One action elsewhere. */
    method OnAction(a: V.Action, clock: int, ghost trace: seq<State>, ghost run: seq<Event>,
                     ghost c: Chain, ghost log: Log)
      returns (now: int, ghost y: State)
      requires Traced(trace, run) && servers.OnCourse(trace[|run|], clock)
      requires servers.Possible(a, trace[|run|]) && NotMine(servers.EventOf(a, trace[|run|]), c)
      requires Agree(trace[|run|], run, i, c, log, reader.angle)
      modifies servers`waiting, servers.waiting, servers.strand, servers.strand.game, servers.strand.game.accepted,
               servers.strand.game.db, servers.login
      ensures Leads(trace[|run|], old(servers.EventOf(a, trace[|run|])), y) && servers.OnCourse(y, now) && Grown()
      ensures Agree(y, run + [old(servers.EventOf(a, trace[|run|]))], i, c, log, reader.angle)
    {
      ghost var ev := servers.EventOf(a, trace[|run|]);
      y := V.NextState(trace[|run|], ev);
      now := OnOther(a, clock, trace[|run|], run, ev, y, c, log);
    }

    /** The action of a turn elsewhere. */
    method OnTurn(t: V.Turn, a: V.Action, clock: int, ghost trace: seq<State>, ghost run: seq<Event>,
                  ghost c: Chain, ghost log: Log)
      returns (now: int, ghost trace': seq<State>, ghost run': seq<Event>)
      requires Traced(trace, run) && servers.OnCourse(trace[|run|], clock)
      requires servers.Possible(a, trace[|run|]) && NotMine(servers.EventOf(a, trace[|run|]), c)
      requires Agree(trace[|run|], run, i, c, log, reader.angle)
      requires Foreign(t, i, c) && V.Offered(t, trace[|run|])
      requires V.Serves(t, servers.EventOf(a, trace[|run|]), trace[|run|], servers.login.verify)
      modifies servers`waiting, servers.waiting, servers.strand, servers.strand.game, servers.strand.game.accepted,
               servers.strand.game.db, servers.login
      ensures Traced(trace', run') && trace'[0] == trace[0] && servers.OnCourse(trace'[|run'|], now) && Grown()
      ensures Agree(trace'[|run'|], run', i, c, log, reader.angle)
      ensures MoveTaken(Elsewhere(t), trace, run, trace', run', c, c, i, reader.angle, servers.login.verify)
    {
      ghost var ev := servers.EventOf(a, trace[|run|]);
      ghost var y;
      now, y := OnAction(a, clock, trace, run, c, log);
      TracedNext(trace, run, ev, y);
      OneMoved(Elsewhere(t), trace, run, ev, y, c, c, i, reader.angle, servers.login.verify);
      trace', run' := trace + [y], run + [ev];
    }

    /** One turn elsewhere, if it is possible and not this session's. */
    method OnElsewhere(t: V.Turn, clock: int, ghost trace: seq<State>, ghost run: seq<Event>,
                     ghost c: Chain, ghost log: Log)
      returns (now: int, ghost trace': seq<State>, ghost run': seq<Event>)
      requires Traced(trace, run) && servers.OnCourse(trace[|run|], clock) && c == reader.Now()
      requires Agree(trace[|run|], run, i, c, log, reader.angle)
      modifies servers`waiting, servers.waiting, servers.strand, servers.strand.game, servers.strand.game.accepted,
               servers.strand.game.db, servers.login
      ensures Traced(trace', run') && trace'[0] == trace[0] && servers.OnCourse(trace'[|run'|], now) && Grown()
      ensures Agree(trace'[|run'|], run', i, c, log, reader.angle)
      ensures MoveTaken(Elsewhere(t), trace, run, trace', run', c, c, i, reader.angle, servers.login.verify)
    {
      servers.DecisionIsRight(t, clock, trace[|run|]);
      var a := if Foreign(t, i, reader.Now()) then servers.Decision(t, clock) else None;
      now, trace', run' := clock, trace, run;
      if a.Some? {
        ForeignIsNotMine(t, a.value, trace[|run|], c);
        now, trace', run' := OnTurn(t, a.value, clock, trace, run, c, log);
      } else {
        NothingMoved(Elsewhere(t), trace, run, c, c, i, reader.angle, servers.login.verify);
      }
    }

    /** One turn elsewhere, the read chain staying as it is. */
    method TakeElsewhere(m: Move, clock: int, ghost trace: seq<State>, ghost run: seq<Event>)
      returns (now: int, ghost trace': seq<State>, ghost run': seq<Event>)
      requires Start(trace, run, clock).Some? && m.Elsewhere?
      modifies servers`waiting, servers.waiting, servers.strand, servers.strand.game, servers.strand.game.accepted,
               servers.strand.game.db, servers.login
      ensures Start(trace', run', now) == old(Start(trace, run, clock)) && Grown()
      ensures MoveTaken(m, trace, run, trace', run', old(reader.Now()), reader.Now(), i, reader.angle,
                        servers.login.verify)
    {
      ghost var c, log := reader.Now(), reader.log;
      now, trace', run' := OnElsewhere(m.t, clock, trace, run, c, log);
      assert reader.Now() == c && reader.log == log;
    }

    /** The posted packet's handler, if there is one. */
    method OnProcess(m: Move, clock: int, ghost trace: seq<State>, ghost run: seq<Event>)
      returns (now: int, ghost trace': seq<State>, ghost run': seq<Event>)
      requires Start(trace, run, clock).Some? && m.Process?
      modifies reader, servers.strand, servers.strand.game, servers.strand.game.accepted, servers.strand.game.db
      ensures Start(trace', run', now) == old(Start(trace, run, clock)) && Grown()
      ensures reader.log.arrived == old(reader.log.arrived)
      ensures MoveTaken(m, trace, run, trace', run', old(reader.Now()), reader.Now(), i,
                        reader.angle, servers.login.verify)
    {
      now, trace', run' := clock, trace, run;
      ghost var c := reader.Now();
      if PostedPacket in reader.outstanding {
        ghost var ev, y;
        now, ev, y := OnPosted(m.serial, m.fault, clock, trace[|run|], run);
        TracedNext(trace, run, ev, y);
        OneMoved(m, trace, run, ev, y, c, reader.Now(), i, reader.angle, servers.login.verify);
        trace', run' := trace + [y], run + [ev];
      } else {
        NothingMoved(m, trace, run, c, c, i, reader.angle, servers.login.verify);
      }
    }

    /** The entry concerns the read chain only. */
    predicate IsLocal(m: Move) {
      m.Bytes? || m.Read? || m.Interrupt?
    }

    /** What it does to the chain. */
    function LocalStep(m: Move, c: Chain): Chain
      requires IsLocal(m)
    {
      match m
      case Bytes(chunk) => c.(socketBytes := c.socketBytes + chunk)
      case Read => if CanRun(c) && PostedPacket !in c.outstanding then ReadStep(c) else c
      case Interrupt(cut) => AfterCut(c, cut)
    }

    method Local(m: Move, ghost x: State, ghost run: seq<Event>)
      requires Valid(x, run) && IsLocal(m)
      modifies reader
      ensures Valid(x, run) && reader.log.arrived == old(reader.log.arrived) + if m.Bytes? then m.chunk else []
      ensures reader.Now() == LocalStep(m, old(reader.Now()))
    {
      match m
      case Bytes(chunk) => OnBytes(chunk, x, run);
      case Interrupt(cut) => OnInterrupt(cut, x, run);
      case Read =>
        if CanRun(reader.Now()) && PostedPacket !in reader.outstanding {
          OnRead(x, run);
        }
    }

    method OnLocal(m: Move, clock: int, ghost trace: seq<State>, ghost run: seq<Event>)
      requires Start(trace, run, clock).Some? && IsLocal(m)
      modifies reader
      ensures Start(trace, run, clock) == old(Start(trace, run, clock)) && Grown()
      ensures reader.log.arrived == old(reader.log.arrived) + if m.Bytes? then m.chunk else []
      ensures MoveTaken(m, trace, run, trace, run, old(reader.Now()), reader.Now(), i, reader.angle,
                        servers.login.verify)
    {
      ghost var c := reader.Now();
      Local(m, trace[|run|], run);
      NothingMoved(m, trace, run, c, reader.Now(), i, reader.angle, servers.login.verify);
    }

    /** One entry of a script; what is not possible now is skipped. */
    method Take(m: Move, clock: int, ghost trace: seq<State>, ghost run: seq<Event>)
      returns (now: int, ghost trace': seq<State>, ghost run': seq<Event>)
      requires Start(trace, run, clock).Some?
      modifies reader, servers`waiting, servers.waiting, servers.strand, servers.strand.game,
               servers.strand.game.accepted, servers.strand.game.db, servers.login
      ensures Start(trace', run', now) == old(Start(trace, run, clock)) && Grown()
      ensures reader.log.arrived == old(reader.log.arrived) + if m.Bytes? then m.chunk else []
      ensures MoveTaken(m, trace, run, trace', run', old(reader.Now()), reader.Now(), i, reader.angle,
                        servers.login.verify)
    {
      if m.Process? {
        now, trace', run' := OnProcess(m, clock, trace, run);
      } else if m.Elsewhere? {
        now, trace', run' := TakeElsewhere(m, clock, trace, run);
      } else {
        now, trace', run' := clock, trace, run;
        OnLocal(m, clock, trace, run);
      }
    }

    /** Only a cut breaks the chain. */
    method TakeWhole(m: Move, clock: int, ghost trace: seq<State>, ghost run: seq<Event>)
      returns (now: int, ghost trace': seq<State>, ghost run': seq<Event>)
      requires Start(trace, run, clock).Some?
      modifies reader, servers`waiting, servers.waiting, servers.strand, servers.strand.game,
               servers.strand.game.accepted, servers.strand.game.db, servers.login
      ensures Start(trace', run', now) == old(Start(trace, run, clock)) && Grown()
      ensures reader.log.arrived == old(reader.log.arrived) + if m.Bytes? then m.chunk else []
      ensures MoveTaken(m, trace, run, trace', run', old(reader.Now()), reader.Now(), i, reader.angle,
                        servers.login.verify)
      ensures (m.Interrupt? ==> m.cut == NoCut) && old(Whole(reader.Now())) ==> Whole(reader.Now())
    {
      ghost var c, log := reader.Now(), reader.log;
      now, trace', run' := Take(m, clock, trace, run);
      if (m.Interrupt? ==> m.cut == NoCut) && Whole(c) {
        MovedKeepsWhole(m, trace'[|run|..], run'[|run|..], c, reader.Now(), log, i, reader.angle,
                        servers.login.verify);
      }
    }

    /** A connection's life beside everything else: bytes, reads, handlers, closes and read errors of
        its own, and whatever happens on the two servers, in any order; every entry that is possible
        when it comes is taken (`Driven`). */
    method Drive(script: seq<Move>, clock: int, ghost x: State)
      returns (now: int, ghost trace: seq<State>, ghost run: seq<Event>)
      requires Valid(x, []) && servers.OnCourse(x, clock)
      modifies reader, servers`waiting, servers.waiting, servers.strand, servers.strand.game,
               servers.strand.game.accepted, servers.strand.game.db, servers.login
      ensures Traced(trace, run) && trace[0] == x && trace[|run|] == Exec(x, run)
      ensures Valid(trace[|run|], run) && servers.OnCourse(trace[|run|], now)
      ensures reader.log.arrived == old(reader.log.arrived) + BytesIn(script)
      ensures Driven(script, trace, run, old(reader.Now()), reader.Now(), i, reader.angle, servers.login.verify)
      ensures Unbroken(script) && old(Whole(reader.Now())) ==> Whole(reader.Now())
    {
      assert script[..0] == [] && script[0..] == script;
      now, trace, run := DriveFrom(script, 0, clock, [x], [], reader.Now());
      TracedIsExec(trace, run);
    }

    /** The script from its `n`-th entry on. */
    method DriveFrom(script: seq<Move>, n: nat, clock: int, ghost trace: seq<State>, ghost run: seq<Event>,
                     ghost c0: Chain)
      returns (now: int, ghost trace': seq<State>, ghost run': seq<Event>)
      requires n <= |script| && Traced(trace, run) && Valid(trace[|run|], run) && servers.OnCourse(trace[|run|], clock)
      requires Driven(script[..n], trace, run, c0, reader.Now(), i, reader.angle, servers.login.verify)
      modifies reader, servers`waiting, servers.waiting, servers.strand, servers.strand.game,
               servers.strand.game.accepted, servers.strand.game.db, servers.login
      ensures Start(trace', run', now) == old(Start(trace, run, clock))
      ensures reader.log.arrived == old(reader.log.arrived) + BytesIn(script[n..])
      ensures Driven(script, trace', run', c0, reader.Now(), i, reader.angle, servers.login.verify)
      ensures Unbroken(script) && old(Whole(reader.Now())) ==> Whole(reader.Now())
      decreases |script| - n
    {
      now, trace', run' := clock, trace, run;
      if n < |script| {
        now, trace', run' := TakeNext(script, n, clock, trace, run, c0);
        now, trace', run' := DriveFrom(script, n + 1, now, trace', run', c0);
        BytesInFirst(old(reader.log.arrived), script[n..]);
        assert script[n..][1..] == script[n + 1..];
      } else {
        assert script[..n] == script && script[n..] == [];
      }
    }

    method TakeNext(script: seq<Move>, n: nat, clock: int, ghost trace: seq<State>, ghost run: seq<Event>,
                    ghost c0: Chain)
      returns (now: int, ghost trace': seq<State>, ghost run': seq<Event>)
      requires n < |script| && Traced(trace, run) && Valid(trace[|run|], run) && servers.OnCourse(trace[|run|], clock)
      requires Driven(script[..n], trace, run, c0, reader.Now(), i, reader.angle, servers.login.verify)
      modifies reader, servers`waiting, servers.waiting, servers.strand, servers.strand.game,
               servers.strand.game.accepted, servers.strand.game.db, servers.login
      ensures Start(trace', run', now) == old(Start(trace, run, clock)) && Grown()
      ensures reader.log.arrived == old(reader.log.arrived) + if script[n].Bytes? then script[n].chunk else []
      ensures Driven(script[..n + 1], trace', run', c0, reader.Now(), i, reader.angle, servers.login.verify)
      ensures Unbroken(script) && old(Whole(reader.Now())) ==> Whole(reader.Now())
    {
      ghost var c := reader.Now();
      now, trace', run' := TakeWhole(script[n], clock, trace, run);
      DrivenOn(script, n, trace, run, trace', run', c0, c, reader.Now(), i, reader.angle, servers.login.verify);
    }

    /** One handler of the connection's own, of those that can run. */
    method RunOne(serial: nat, fault: Fault, clock: int, ghost trace: seq<State>, ghost run: seq<Event>)
      returns (now: int, ghost trace': seq<State>, ghost run': seq<Event>)
      requires Start(trace, run, clock).Some?
      requires CanRun(reader.Now())
      modifies reader, servers`waiting, servers.waiting, servers.strand, servers.strand.game,
               servers.strand.game.accepted, servers.strand.game.db, servers.login
      ensures Start(trace', run', now) == old(Start(trace, run, clock)) && Grown()
      ensures reader.log.arrived == old(reader.log.arrived)
      ensures old(Whole(reader.Now())) ==> Whole(reader.Now())
      ensures |reader.socketBytes| < old(|reader.socketBytes|) ||
              (|reader.socketBytes| == old(|reader.socketBytes|) &&
               PostedPacket in old(reader.outstanding) && PostedPacket !in reader.outstanding)
    {
      ghost var c := reader.Now();
      var m := if PostedPacket in reader.outstanding then Process(serial, fault) else Read;
      now, trace', run' := TakeWhole(m, clock, trace, run);
      HandlerMoved(m, trace, run, trace', run', c, reader.Now(), i, reader.angle, servers.login.verify);
    }

    /** Every handler of the connection's own that can run does. */
    method Finish(serial: nat, fault: Fault, clock: int, ghost trace: seq<State>, ghost run: seq<Event>)
      returns (now: int, ghost trace': seq<State>, ghost run': seq<Event>)
      requires Start(trace, run, clock).Some?
      modifies reader, servers`waiting, servers.waiting, servers.strand, servers.strand.game,
               servers.strand.game.accepted, servers.strand.game.db, servers.login
      ensures Start(trace', run', now) == old(Start(trace, run, clock))
      ensures reader.log.arrived == old(reader.log.arrived) && !CanRun(reader.Now())
      ensures old(Whole(reader.Now())) ==> Whole(reader.Now())
      decreases |reader.socketBytes|, if PostedPacket in reader.outstanding then 1 else 0
    {
      now, trace', run' := clock, trace, run;
      if CanRun(reader.Now()) {
        now, trace', run' := RunOne(serial, fault, clock, trace, run);
        now, trace', run' := Finish(serial, fault, now, trace', run');
      }
    }

    /** A script, and then every handler of the connection's own that can still run. */
    method DriveToTheEnd(script: seq<Move>, serial: nat, fault: Fault, clock: int, ghost x: State)
      returns (now: int, ghost trace: seq<State>, ghost run: seq<Event>)
      requires Valid(x, []) && servers.OnCourse(x, clock)
      modifies reader, servers`waiting, servers.waiting, servers.strand, servers.strand.game,
               servers.strand.game.accepted, servers.strand.game.db, servers.login
      ensures Traced(trace, run) && trace[0] == x && trace[|run|] == Exec(x, run)
      ensures Valid(trace[|run|], run) && servers.OnCourse(trace[|run|], now)
      ensures reader.log.arrived == old(reader.log.arrived) + BytesIn(script) && !CanRun(reader.Now())
      ensures Unbroken(script) && old(Whole(reader.Now())) ==> Whole(reader.Now())
    {
      now, trace, run := DriveThenFinish(script, serial, fault, clock, [x], []);
      TracedIsExec(trace, run);
    }

    method DriveThenFinish(script: seq<Move>, serial: nat, fault: Fault, clock: int,
                           ghost trace: seq<State>, ghost run: seq<Event>)
      returns (now: int, ghost trace': seq<State>, ghost run': seq<Event>)
      requires Start(trace, run, clock).Some?
      modifies reader, servers`waiting, servers.waiting, servers.strand, servers.strand.game,
               servers.strand.game.accepted, servers.strand.game.db, servers.login
      ensures Start(trace', run', now) == old(Start(trace, run, clock))
      ensures reader.log.arrived == old(reader.log.arrived) + BytesIn(script) && !CanRun(reader.Now())
      ensures Unbroken(script) && old(Whole(reader.Now())) ==> Whole(reader.Now())
      decreases |script|
    {
      if script == [] {
        assert old(reader.log.arrived) + BytesIn(script) == old(reader.log.arrived);
        now, trace', run' := Finish(serial, fault, clock, trace, run);
      } else {
        if Unbroken(script) {
          UnbrokenRest(script);
        }
        now, trace', run' := TakeWhole(script[0], clock, trace, run);
        now, trace', run' := DriveThenFinish(script[1..], serial, fault, now, trace', run');
        BytesInFirst(old(reader.log.arrived), script);
      }
    }

    /** A client whose only packets without a payload are pings, writing `ps` while everything else goes
        on, until nothing of its own can run any more: whatever the order, the server hears the first of
        what it means; all of it if all bytes have arrived, nobody cut the connection and its first
        packet was not one to hang up on. */
    method Serve(script: seq<Move>, ps: seq<Packet>, serial: nat, fault: Fault, ghost more: Text, clock: int,
                 ghost x: State)
      returns (now: int, ghost run: seq<Event>, ghost y: State)
      requires Valid(x, []) && servers.OnCourse(x, clock) && reader.log.arrived == []
      requires BytesIn(script) + more == EncodeAll(ps)
      requires forall p | p in ps :: WellFormed(p) && (p.payload == [] ==> p.opcode == CMSG_PING)
      modifies reader, servers`waiting, servers.waiting, servers.strand, servers.strand.game,
               servers.strand.game.accepted, servers.strand.game.db, servers.login
      ensures y == Exec(x, run) && servers.OnCourse(y, now) && Heard(run, i) <= Meant(ps, reader.angle)
      ensures Unbroken(script) && old(Whole(reader.Now())) && more == [] && !reader.conn.Closed? ==>
                Heard(run, i) == Meant(ps, reader.angle)
    {
      ghost var trace;
      now, trace, run := DriveToTheEnd(script, serial, fault, clock, x);
      y := trace[|run|];
      assert [] + BytesIn(script) == BytesIn(script);
      ServerHearsClient(y, run, ps, more);
    }

    /** The client's bytes become the session's events: for a client whose only packets without a
        payload are pings, what the server has heard from the session, in whatever run and in
        whatever chunks the bytes came, is what the first of its packets meant, in order; all of them
        once all have arrived and no handler can run any more on the open session. */
    lemma ServerHearsClient(x: State, run: seq<Event>, ps: seq<Packet>, more: Text)
      requires Valid(x, run) && reader.log.arrived + more == EncodeAll(ps)
      requires forall p | p in ps :: WellFormed(p) && (p.payload == [] ==> p.opcode == CMSG_PING)
      ensures Heard(run, i) <= Meant(ps, reader.angle)
      ensures reader.open && more == [] && reader.outstanding != [] && !CanRun(reader.Now()) ==>
                Heard(run, i) == Meant(ps, reader.angle)
    {
      HeardAsMeant(ps, reader.Now(), reader.log, more, reader.angle);
    }
  }

  lemma HeardAsMeant(ps: seq<Packet>, c: Chain, log: Log, more: Text, angle: Text -> Angle)
    requires Good(c, log, angle) && log.arrived + more == EncodeAll(ps)
    requires forall p | p in ps :: WellFormed(p) && (p.payload == [] ==> p.opcode == CMSG_PING)
    ensures Dispatches(log.processed, angle) <= Meant(ps, angle)
    ensures c.open && more == [] && c.outstanding != [] && !CanRun(c) ==>
            Dispatches(log.processed, angle) == Meant(ps, angle)
  {
    ProcessedOfSent(ps, c, log, more);
    PrefixMeant(ps, log.processed, angle);
  }

  /** The packets processed are the first of those sent. */
  lemma ProcessedOfSent(ps: seq<Packet>, c: Chain, log: Log, more: Text)
    requires OneHandler(c) && BytesFit(c, log) && log.arrived + more == EncodeAll(ps)
    requires forall p | p in ps :: WellFormed(p)
    ensures log.processed <= ps
    ensures c.open && more == [] && c.outstanding != [] && !CanRun(c) ==> log.processed == ps
  {
    FramesOfEncoded(ServerReader, ps);
    FramesConcat(ServerReader, log.arrived, more);
    if c.open && more == [] && c.outstanding != [] && !CanRun(c) {
      assert log.arrived + [] == log.arrived;
      AllProcessed(c, log);
    }
  }

  lemma PrefixMeant(ps: seq<Packet>, done: seq<Packet>, angle: Text -> Angle)
    requires done <= ps && forall p | p in ps && p.payload == [] :: p.opcode == CMSG_PING
    ensures Dispatches(done, angle) <= Meant(ps, angle)
    ensures done == ps ==> Dispatches(done, angle) == Meant(ps, angle)
  {
    assert forall p | p in done :: p in ps;
    DispatchedAsMeant(done, angle);
    assert Meant(ps, angle)[..|done|] == Meant(done, angle);
  }

  // ----- this project's client -----

  /** What the client writes to the game server: its token, then keys and headings. */
  datatype Intent = Intent(flags: byte, yaw: Text)

  function ClientPackets(token: Text, intents: seq<Intent>): (ps: seq<Packet>)
    requires |token| == TOKEN_LENGTH && forall m | m in intents :: |m.yaw| == 4
    ensures |ps| == 1 + |intents| && ps[0] == GameAuthPacket(token)
    ensures forall k | 0 <= k < |intents| :: ps[1 + k] == MovePacket(intents[k].flags, intents[k].yaw)
  {
    [GameAuthPacket(token)] +
    seq(|intents|, k requires 0 <= k < |intents| => MovePacket(intents[k].flags, intents[k].yaw))
  }

  /** The server takes it for exactly that. */
  lemma ClientIsUnderstood(token: Text, intents: seq<Intent>, angle: Text -> Angle)
    requires |token| == TOKEN_LENGTH && forall m | m in intents :: |m.yaw| == 4
    ensures var ps := ClientPackets(token, intents);
            && (forall p | p in ps :: WellFormed(p) && p.payload != [])
            && Meant(ps, angle)[0] == GameAuth(token)
            && forall k | 0 <= k < |intents| :: Meant(ps, angle)[1 + k] == Move(intents[k].flags, angle(intents[k].yaw))
  {
    var ps := ClientPackets(token, intents);
    assert token[..32] == token;
    forall k | 0 <= k < |intents|
      ensures Meant(ps, angle)[1 + k] == Move(intents[k].flags, angle(intents[k].yaw))
    {
      assert intents[k] in intents;
      MovePacketReadsBack(intents[k].flags, intents[k].yaw, angle);
    }
    forall p | p in ps
      ensures WellFormed(p) && p.payload != []
    {
      var k :| 0 <= k < |ps| && ps[k] == p;
      if k > 0 {
        assert ps[1 + (k - 1)] == p;
        assert intents[k - 1] in intents;
      }
    }
  }
}
