/** Both servers over one database: the game server's strand and the login server, whose two
    transactions may come between any two handlers, and a handler between the two. */
module Servers {
  import opened Protocol
  import opened Token
  import opened Wire
  import opened Database
  import opened System
  import opened Ownership
  import World
  import S = Strand
  import L = LoginServer

  /** What can happen on either server: a handler of the game server or a pause, a login request's
      credential check, and the insertion of its token. */
  datatype Action =
    | Game(ev: Event)
    | Check(payload: Text, w: L.Weather)
    | Grant(w: L.Weather)

  /** One entry of a schedule: what somebody does next, if it is possible then. */
  datatype Turn =
    | Accept
    | Packet(session: World.SessionId, request: Request, serial: nat, fault: Fault)
    | Tick(order: seq<World.EntityId>, failed: set<World.EntityId>)
    | Leave(session: World.SessionId)
    | Destroy(index: nat, saveFails: bool)
    | Wait(micros: nat)
    | Login(payload: Text, w: L.Weather)
    | Insert(w: L.Weather)

  /** No accepted login still waits for its token. */
  ghost predicate NoneWaiting(x: State) {
    forall l | 0 <= l < |x.logins| :: x.logins[l].done
  }

  /** Whether the turn is possible in state `x`. */
  ghost predicate Offered(t: Turn, x: State) {
    match t
    case Packet(j, _, _, _) => j < |x.server.sessions| && x.server.sessions[j].alive && x.server.sessions[j].open
    case Tick(order, _) => World.Enumerates(order, x.server.world)
    case Leave(j) => j < |x.server.sessions| && x.server.sessions[j].alive
    case Destroy(k, _) => k < |x.server.pending|
    case Login(payload, _) => |payload| >= L.LOGIN_SIZE && NoneWaiting(x)
    case Insert(_) => !NoneWaiting(x)
    case _ => true
  }

  /** The event is what the turn asks for in state `x`. */
  ghost predicate Serves(t: Turn, ev: Event, x: State, verify: L.Verifier) {
    Enabled(x, ev) &&
    match t
    case Accept => ev == Connect
    case Packet(j, request, serial, fault) => ev == Receive(j, request, serial, fault)
    case Tick(order, failed) => ev == TickEvent(order, failed)
    case Leave(j) => ev == DropSession(j)
    case Destroy(k, saveFails) => ev == DestroyEntity(k, saveFails)
    case Wait(micros) => ev == PassTime(micros)
    case Login(payload, w) =>
      |payload| >= L.LOGIN_SIZE &&
      ev == LoginCheck(L.UsernameIn(payload),
                       L.Matches(x.tables, L.UsernameIn(payload), L.PasswordIn(payload), verify), w.checkFails)
    case Insert(w) => ev.LoginIssue? && ev.token == PrintToken(w.first, w.second) && ev.dbFails == w.insertFails
  }

  /** Handlers and pauses leave the logins alone. */
  lemma HandlersKeepLogins(x: State, ev: Event, y: State)
    requires (S.GameEvent(ev) || ev.PassTime?) && Leads(x, ev, y)
    ensures y.logins == x.logins
  {
    LeadsIsStep(x, ev, y);
  }

  lemma LoginsKeepServer(x: State, ev: Event, y: State)
    requires (ev.LoginCheck? || ev.LoginIssue?) && Leads(x, ev, y)
    ensures y.server == x.server && y.clock == x.clock && y == Step(x, ev)
  {
    LeadsIsStep(x, ev, y);
  }

  /** What the two servers' objects amount to. */
  datatype Joint = Joint(server: World.Server, tables: Tables, logins: seq<Login>)

  class Servers {
    const strand: S.Strand
    const login: L.LoginServer
    // the login request being processed, once its credentials are accepted
    var waiting: L.LoginSession?

    /** Both servers up, in state `x`, with no login on its way. */
    constructor (strand: S.Strand, login: L.LoginServer, ghost x: State)
      requires strand.Valid() && strand.game.db == login.db && login.logins == []
      requires Owned(x.server) && x.server == strand.game.State() && x.tables == login.db.tables && x.logins == []
      ensures waiting == null && this.strand == strand && this.login == login && OnCourse(x, x.clock)
    {
      OwnedIsReached(x);
      this.strand, this.login, this.waiting := strand, login, null;
    }

    /** The game server's objects are in state `x`. */
    ghost predicate GameReady(x: State)
      reads strand, strand.game, strand.game.accepted
    {
      strand.Valid() && Reached(x) && x.server == strand.game.State()
    }

    /** So are the login server's, and the tables. */
    ghost predicate LoginReady(x: State, clock: int)
      reads this, login, login.db, waiting
    {
      x.tables == login.db.tables && x.clock == clock && x.logins == login.logins && WaitingGood()
    }

    /** The state the objects of both servers are in, over the same tables, if they are in any. */
    ghost function Current(): Option<Joint>
      reads this, strand, strand.game, strand.game.accepted, login, login.db, waiting
    {
      var tables, logins := login.db.tables, login.logins;
      if strand.game.db == login.db && strand.Valid() && WaitingGood()
      then Some(Joint(strand.game.State(), tables, logins)) else None
    }

    /** The login being processed is the one without its token yet. */
    ghost predicate WaitingGood()
      reads this, login, waiting
    {
      && (waiting != null ==> waiting.server == login && waiting.Accepted())
      && (forall l | 0 <= l < |login.logins| :: login.logins[l].done <==> waiting == null || waiting.login != l)
    }

    /** The objects of both servers are in state `x`. */
    ghost predicate OnCourse(x: State, clock: int)
      reads this, strand, strand.game, strand.game.accepted, login, login.db, waiting
    {
      Current() == Some(Joint(x.server, x.tables, x.logins)) && x.clock == clock && Reached(x)
    }

    /** The event an action is. */
    ghost function EventOf(a: Action, x: State): Event
      requires a.Check? ==> |a.payload| >= L.LOGIN_SIZE
      requires a.Grant? ==> waiting != null
      reads this, waiting
    {
      match a
      case Game(ev) => ev
      case Check(payload, w) =>
        LoginCheck(L.UsernameIn(payload),
                   L.Matches(x.tables, L.UsernameIn(payload), L.PasswordIn(payload), login.verify), w.checkFails)
      case Grant(w) => LoginIssue(waiting.login, PrintToken(w.first, w.second), w.insertFails)
    }

    /** A login request is processed to its end before the next is looked at. */
    ghost predicate Possible(a: Action, x: State)
      reads this
    {
      match a
      case Game(ev) => (S.GameEvent(ev) || ev.PassTime?) && Enabled(x, ev)
      case Check(payload, w) => waiting == null && |payload| >= L.LOGIN_SIZE && w.now == x.clock
      case Grant(w) => waiting != null && w.now == x.clock
    }

    /** A handler of the game server, or a pause: the strand runs it. */
    method Handle(ev: Event, clock: int, ghost x: State, ghost y: State) returns (now: int)
      requires GameReady(x) && x.tables == strand.game.db.tables && x.clock == clock
      requires (S.GameEvent(ev) || ev.PassTime?) && Enabled(x, ev) && Leads(x, ev, y)
      modifies strand, strand.game, strand.game.accepted, strand.game.db
      ensures GameReady(y) && y.tables == strand.game.db.tables && y.clock == now && strand.NothingOld()
    {
      LeadsIsStep(x, ev, y);
      ReachedNext(x, ev, y);
      now := strand.Next(ev, clock, x);
    }

    /** ... and the login server stays as it is. */
    method OnGame(ev: Event, clock: int, ghost x: State, ghost y: State) returns (now: int)
      requires OnCourse(x, clock) && (S.GameEvent(ev) || ev.PassTime?) && Enabled(x, ev)
      requires Leads(x, ev, y) && y.logins == x.logins
      modifies strand, strand.game, strand.game.accepted, strand.game.db
      ensures OnCourse(y, now) && strand.NothingOld()
    {
      now := Handle(ev, clock, x, y);
    }

    /** The message has the name of an account and a password the verifier accepts for it. */
    ghost predicate RightPassword(payload: Text, tables: Tables)
      requires |payload| >= 68
    {
      exists a :: && a in tables.accounts && tables.accounts[a].username == CString(payload[..32])
                  && login.verify(CString(payload[32..64]), tables.accounts[a].passwordHash)
    }

    /** verify_credentials for a new connection. */
    method CheckCredentials(payload: Text, w: L.Weather, ghost x: State) returns (ghost ev: Event)
      requires LoginReady(x, w.now) && waiting == null && |payload| >= L.LOGIN_SIZE
      modifies this`waiting, login`logins, login`history
      ensures ev == LoginCheck(L.UsernameIn(payload),
                               L.Matches(x.tables, L.UsernameIn(payload), L.PasswordIn(payload), login.verify),
                               w.checkFails)
      ensures LoginReady(Step(x, ev), w.now) && (waiting != null ==> fresh(waiting))
      ensures UsernamesUnique(x.tables) ==> (waiting != null <==> !w.checkFails && RightPassword(payload, x.tables))
    {
      var username, password := L.UsernameIn(payload), L.PasswordIn(payload);
      ev := LoginCheck(username, L.Matches(x.tables, username, password, login.verify), w.checkFails);
      LoginsIgnoreHistory(x, login.Now(x.server, w.now), ev);
      var session := new L.LoginSession(login);
      var accepted := session.VerifyCredentials(username, password, w.checkFails, x.server, w.now);
      if accepted {
        waiting := session;
      }
    }

    method OnCheck(payload: Text, w: L.Weather, ghost x: State, ghost y: State)
      requires OnCourse(x, w.now) && Possible(Check(payload, w), x) && Leads(x, EventOf(Check(payload, w), x), y)
      modifies this`waiting, login`logins, login`history
      ensures OnCourse(y, w.now) && (waiting != null ==> fresh(waiting))
      ensures UsernamesUnique(x.tables) ==> (waiting != null <==> !w.checkFails && RightPassword(payload, x.tables))
    {
      LoginsKeepServer(x, EventOf(Check(payload, w), x), y);
      ReachedNext(x, EventOf(Check(payload, w), x), y);
      ghost var ev := CheckCredentials(payload, w, x);
    }

    /** The rest of that request: the token's insertion and the redirect, or a hang-up. */
    method GrantToken(w: L.Weather, ghost x: State) returns (ghost ev: Event)
      requires LoginReady(x, w.now) && waiting != null
      modifies this`waiting, waiting, login`logins, login`history, login.db
      ensures ev == LoginIssue(old(waiting.login), PrintToken(w.first, w.second), w.insertFails)
      ensures LoginReady(Step(x, ev), w.now) && waiting == null
    {
      ev := LoginIssue(waiting.login, PrintToken(w.first, w.second), w.insertFails);
      LoginsIgnoreHistory(x, login.Now(x.server, w.now), ev);
      waiting.Grant(w, x.server);
      waiting := null;
    }

    method OnGrant(w: L.Weather, ghost x: State, ghost y: State)
      requires OnCourse(x, w.now) && Possible(Grant(w), x) && Leads(x, EventOf(Grant(w), x), y)
      modifies this`waiting, waiting, login`logins, login`history, login.db
      ensures OnCourse(y, w.now) && waiting == null
    {
      LoginsKeepServer(x, EventOf(Grant(w), x), y);
      ReachedNext(x, EventOf(Grant(w), x), y);
      ghost var ev := GrantToken(w, x);
    }

    /** Any action is its event's step of the system. */
    method Act(a: Action, clock: int, ghost x: State, ghost y: State) returns (now: int)
      requires OnCourse(x, clock) && Possible(a, x) && Leads(x, EventOf(a, x), y)
      modifies this`waiting, waiting, strand, strand.game, strand.game.accepted, strand.game.db, login
      ensures OnCourse(y, now)
      ensures strand.NothingOld() && (waiting == old(waiting) || waiting == null || fresh(waiting))
    {
      match a
      case Game(e) =>
        HandlersKeepLogins(x, e, y);
        now := OnGame(e, clock, x, y);
      case Check(payload, w) =>
        now := clock;
        OnCheck(payload, w, x, y);
      case Grant(w) =>
        now := clock;
        OnGrant(w, x, y);
    }

    predicate IsAlive(j: World.SessionId)
      reads strand, strand.connections
    {
      j < |strand.connections| && strand.connections[j].alive
    }

    predicate IsOpen(j: World.SessionId)
      reads strand, strand.connections
    {
      IsAlive(j) && strand.connections[j].open
    }

    /** The order visits every entity once. */
    predicate IsView(order: seq<World.EntityId>)
      reads strand.game
    {
      && (forall k, l | 0 <= k < l < |order| :: order[k] != order[l])
      && (forall e | e in order :: e in strand.game.valid) && (forall e | e in strand.game.valid :: e in order)
    }

    /** The action a turn is, if it is possible now. */
    function Decision(t: Turn, clock: int): Option<Action>
      reads this, strand, strand.connections, strand.game
    {
      match t
      case Accept => Some(Game(Connect))
      case Packet(j, request, serial, fault) =>
        if IsOpen(j) then Some(Game(Receive(j, request, serial, fault))) else None
      case Tick(order, failed) => if IsView(order) then Some(Game(TickEvent(order, failed))) else None
      case Leave(j) => if IsAlive(j) then Some(Game(DropSession(j))) else None
      case Destroy(k, saveFails) => if k < |strand.game.pending| then Some(Game(DestroyEntity(k, saveFails))) else None
      case Wait(micros) => Some(Game(PassTime(micros)))
      case Login(payload, w) =>
        if waiting == null && |payload| >= L.LOGIN_SIZE then Some(Check(payload, w.(now := clock))) else None
      case Insert(w) => if waiting != null then Some(Grant(w.(now := clock))) else None
    }

    lemma SessionsAreConnections(j: World.SessionId, x: State)
      requires GameReady(x)
      ensures j < |x.server.sessions| <==> j < |strand.connections|
      ensures j < |strand.connections| ==> x.server.sessions[j] == strand.connections[j].Snapshot()
    {
    }

    lemma ViewsEnumerate(order: seq<World.EntityId>, x: State)
      requires GameReady(x)
      ensures IsView(order) <==> World.Enumerates(order, x.server.world)
    {
      assert x.server.world == strand.game.WorldNow();
      assert forall e :: e in x.server.world <==> e in strand.game.valid;
    }

    /** The objects decide as the state does. */
    lemma DecisionIsRight(t: Turn, clock: int, x: State)
      requires OnCourse(x, clock)
      ensures Decision(t, clock).Some? <==> Offered(t, x)
      ensures Decision(t, clock).Some? ==>
                && Possible(Decision(t, clock).value, x)
                && Serves(t, EventOf(Decision(t, clock).value, x), x, login.verify)
    {
      match t
      case Packet(j, _, _, _) => SessionsAreConnections(j, x);
      case Leave(j) => SessionsAreConnections(j, x);
      case Tick(order, _) => ViewsEnumerate(order, x);
      case _ =>
    }

    /** One turn of a schedule. */
    method Take(t: Turn, clock: int, ghost trace: seq<State>, ghost run: seq<Event>)
      returns (now: int, ghost trace': seq<State>, ghost run': seq<Event>)
      requires Traced(trace, run) && OnCourse(trace[|run|], clock)
      modifies this`waiting, waiting, strand, strand.game, strand.game.accepted, strand.game.db, login
      ensures Traced(trace', run') && OnCourse(trace'[|run'|], now)
      ensures TurnTaken(t, trace, run, trace', run', login.verify)
      ensures strand.NothingOld() && (waiting == old(waiting) || waiting == null || fresh(waiting))
    {
      now, trace', run' := clock, trace, run;
      DecisionIsRight(t, clock, trace[|run|]);
      var a := Decision(t, clock);
      if a.Some? {
        ghost var ev := EventOf(a.value, trace[|run|]);
        ghost var y := NextState(trace[|run|], ev);
        TracedNext(trace, run, ev, y);
        trace', run' := trace + [y], run + [ev];
        now := Act(a.value, clock, trace[|run|], y);
      }
    }

    /** Any schedule, on the objects of both servers: they run as the step system runs. */
    method Run(schedule: seq<Turn>, clock: int, ghost x: State)
      returns (now: int, ghost trace: seq<State>, ghost run: seq<Event>)
      requires OnCourse(x, clock)
      modifies this`waiting, waiting, strand, strand.game, strand.game.accepted, strand.game.db, login
      ensures Traced(trace, run) && trace[0] == x && OnCourse(trace[|run|], now)
      ensures trace[|run|] == Exec(x, run) && Follows(schedule, trace, run, login.verify)
    {
      assert schedule[..0] == [];
      now, trace, run := RunFrom(schedule, 0, clock, [x], []);
      TracedIsExec(trace, run);
    }

    /** The schedule from its `n`-th turn on. */
    method RunFrom(schedule: seq<Turn>, n: nat, clock: int, ghost trace: seq<State>, ghost run: seq<Event>)
      returns (now: int, ghost trace': seq<State>, ghost run': seq<Event>)
      requires n <= |schedule| && Traced(trace, run) && OnCourse(trace[|run|], clock)
      requires Follows(schedule[..n], trace, run, login.verify)
      modifies this`waiting, waiting, strand, strand.game, strand.game.accepted, strand.game.db, login
      ensures Traced(trace', run') && trace'[0] == trace[0] && OnCourse(trace'[|run'|], now)
      ensures Follows(schedule, trace', run', login.verify)
      decreases |schedule| - n
    {
      now, trace', run' := clock, trace, run;
      if n < |schedule| {
        now, trace', run' := TakeNext(schedule, n, clock, trace, run);
        now, trace', run' := RunFrom(schedule, n + 1, now, trace', run');
      } else {
        assert schedule[..n] == schedule;
      }
    }

    method TakeNext(schedule: seq<Turn>, n: nat, clock: int, ghost trace: seq<State>, ghost run: seq<Event>)
      returns (now: int, ghost trace': seq<State>, ghost run': seq<Event>)
      requires n < |schedule| && Traced(trace, run) && OnCourse(trace[|run|], clock)
      requires Follows(schedule[..n], trace, run, login.verify)
      modifies this`waiting, waiting, strand, strand.game, strand.game.accepted, strand.game.db, login
      ensures Traced(trace', run') && trace'[0] == trace[0] && OnCourse(trace'[|run'|], now)
      ensures Follows(schedule[..n + 1], trace', run', login.verify)
      ensures strand.NothingOld() && (waiting == old(waiting) || waiting == null || fresh(waiting))
    {
      now, trace', run' := Take(schedule[n], clock, trace, run);
      FollowsOn(schedule, n, trace, run, trace', run', login.verify);
    }
  }

  lemma NextState(x: State, ev: Event) returns (y: State)
    ensures Leads(x, ev, y)
  {
    y := Step(x, ev);
    LeadsIsStep(x, ev, y);
  }

  /** The trace goes on by the turn's event if it is possible, and not at all if it is not. */
  ghost predicate TurnTaken(t: Turn, trace: seq<State>, run: seq<Event>, trace': seq<State>, run': seq<Event>,
                            verify: L.Verifier)
    requires |trace| == |run| + 1
  {
    if Offered(t, trace[|run|]) then
      |trace'| == |trace| + 1 && |run'| == |run| + 1 && trace <= trace' && run <= run' &&
      Serves(t, run'[|run|], trace[|run|], verify)
    else trace' == trace && run' == run
  }

  /** Run and trace are what the schedule brings about, turn by turn. */
  ghost predicate Follows(schedule: seq<Turn>, trace: seq<State>, run: seq<Event>, verify: L.Verifier)
    decreases |schedule|
  {
    |trace| == |run| + 1 &&
    if schedule == [] then run == []
    else
      exists k | 0 <= k <= |run| ::
        && Follows(schedule[..|schedule| - 1], trace[..k + 1], run[..k], verify)
        && TurnTaken(schedule[|schedule| - 1], trace[..k + 1], run[..k], trace, run, verify)
  }

  lemma FollowsOn(schedule: seq<Turn>, n: nat, trace: seq<State>, run: seq<Event>, trace': seq<State>, run': seq<Event>,
                  verify: L.Verifier)
    requires n < |schedule| && Traced(trace, run) && Follows(schedule[..n], trace, run, verify)
    requires TurnTaken(schedule[n], trace, run, trace', run', verify)
    ensures Follows(schedule[..n + 1], trace', run', verify) && trace'[0] == trace[0]
  {
    var more := schedule[..n + 1];
    assert more[..|more| - 1] == schedule[..n];
    assert run'[..|run|] == run && trace'[..|run| + 1] == trace;
    assert Follows(more[..|more| - 1], trace'[..|run| + 1], run'[..|run|], verify);
  }
}
