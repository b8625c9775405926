/** What can appear on one session's outgoing stream, and in what order. */
module Streams {
  import opened Protocol
  import opened Database
  import opened World
  import opened System
  import opened Ownership

  predicate Traffic(m: Message) {
    m.PlayerState? || m.PlayerLeave? || m.Chat? || m.Pong?
  }

  predicate AllTraffic(ms: seq<Message>) {
    forall k | 0 <= k < |ms| :: Traffic(ms[k])
  }

  predicate Rejections(ms: seq<Message>) {
    forall k | 0 <= k < |ms| :: ms[k] == AuthFail
  }

  /** Rejections, then one AUTH_OK naming character `c` at position `k`, then game traffic. */
  predicate EntersAt(ms: seq<Message>, k: nat, c: nat) {
    && k < |ms| && ms[k] == AuthOk(c)
    && Rejections(ms[..k])
    && AllTraffic(ms[k + 1..])
  }

  /** The stream fits the session's state; the AUTH_OK names the character the session plays. */
  ghost predicate StreamFits(s: Server, i: SessionId)
    requires i < |s.sessions|
  {
    var session := s.sessions[i];
    if session.phase == WaitingForAuth then Rejections(session.sent)
    else exists k: nat, c: nat ::
      EntersAt(session.sent, k, c) && (InWorld(s, i) ==> EntityOf(s, i).data.characterId == c)
  }

  ghost predicate StreamsFit(s: Server) {
    forall i | 0 <= i < |s.sessions| :: StreamFits(s, i)
  }

  /** Same player, same character, possibly more game traffic: still fits. */
  lemma StreamGrows(s: Server, s': Server, i: SessionId, more: seq<Message>)
    requires i < |s.sessions| && i < |s'.sessions| && StreamFits(s, i)
    requires s'.sessions[i].phase == s.sessions[i].phase
    requires s'.sessions[i].sent == s.sessions[i].sent + more && AllTraffic(more)
    requires s.sessions[i].phase == WaitingForAuth ==> more == []
    requires InWorld(s', i) ==> InWorld(s, i) && EntityOf(s', i).data.characterId == EntityOf(s, i).data.characterId
    ensures StreamFits(s', i)
  {
    var old_, new_ := s.sessions[i].sent, s'.sessions[i].sent;
    if s.sessions[i].phase == WaitingForAuth {
      assert new_ == old_;
    } else {
      var k: nat, c: nat :| EntersAt(old_, k, c) && (InWorld(s, i) ==> EntityOf(s, i).data.characterId == c);
      assert new_[..k] == old_[..k];
      assert new_[k + 1..] == old_[k + 1..] + more;
      assert EntersAt(new_, k, c);
    }
  }

  lemma EnterFits(s: Server, i: SessionId, a: Admission)
    requires Owned(s) && StreamsFit(s)
    requires Alive(s.sessions, i) && s.sessions[i].phase == WaitingForAuth && a.Admitted?
    ensures StreamsFit(Enter(s, i, a))
  {
    var s' := Enter(s, i, a);
    forall j | 0 <= j < |s'.sessions|
      ensures StreamFits(s', j)
    {
      assert StreamFits(s, j);
      if j == i {
        var before := s.sessions[i].sent;
        var after := s'.sessions[i].sent;
        assert after[..|before|] == before && after[|before| + 1..] == [];
        assert EntersAt(after, |before|, a.characterId);
      } else {
        assert s'.sessions[j].sent == s.sessions[j].sent + [];
        StreamGrows(s, s', j, []);
      }
    }
  }

  /** Any step that leaves phases and identities alone and only appends game traffic. */
  lemma TrafficFits(s: Server, s': Server, to: set<SessionId>, msgs: seq<Message>)
    requires Owned(s) && StreamsFit(s) && AllTraffic(msgs)
    requires |s'.sessions| == |s.sessions|
    requires forall j | 0 <= j < |s.sessions| ::
               && s'.sessions[j].phase == s.sessions[j].phase
               && s'.sessions[j].sent == s.sessions[j].sent + (if j in to then msgs else [])
               && (InWorld(s', j) ==>
                     InWorld(s, j) && EntityOf(s', j).data.characterId == EntityOf(s, j).data.characterId)
    requires forall j | j in to :: j < |s.sessions| && s.sessions[j].phase == Authenticated
    ensures StreamsFit(s')
  {
    forall j | 0 <= j < |s'.sessions|
      ensures StreamFits(s', j)
    {
      StreamGrows(s, s', j, if j in to then msgs else []);
    }
  }

  /** One session's stream gets something while nobody plays there yet. */
  lemma NoteFits(s: Server, i: SessionId, session: Session)
    requires StreamsFit(s) && i < |s.sessions| && s.sessions[i].phase == WaitingForAuth
    requires session.phase == WaitingForAuth && Rejections(session.sent)
    ensures StreamsFit(Update(s, i, session))
  {
    var s' := Update(s, i, session);
    forall j | 0 <= j < |s'.sessions|
      ensures StreamFits(s', j)
    {
      if j != i {
        assert s'.sessions[j].sent == s.sessions[j].sent + [];
        StreamGrows(s, s', j, []);
      }
    }
  }

  lemma FirstPacketFits(s: Server, t: Tables, i: SessionId, request: Request, env: AuthEnv)
    requires Owned(s) && StreamsFit(s) && Alive(s.sessions, i) && s.sessions[i].phase == WaitingForAuth
    ensures StreamsFit(ProcessPacket(s, t, i, request, env).0)
  {
    var session := s.sessions[i];
    assert StreamFits(s, i);
    if request.GameAuth? && Admit(t, request.token, env).Admitted? {
      EnterFits(s, i, Admit(t, request.token, env));
    } else if request.GameAuth? {
      NoteFits(s, i, session.(sent := session.sent + [AuthFail]));
    } else {
      NoteFits(s, i, session.(open := false));
    }
  }

  lemma ChatFits(s: Server, i: SessionId, channel: Channel, target: Text, text: Text)
    requires Owned(s) && StreamsFit(s)
    ensures StreamsFit(HandleChat(s, i, channel, target, text))
  {
    if InWorld(s, i) && !channel.Guild? && !channel.OtherChannel? {
      var e := EntityOf(s, i);
      TrafficFits(s, HandleChat(s, i, channel, target, text),
                  Hearers(s, channel, e.position.x, e.position.z, target), [Chat(channel, e.data.name, text)]);
    }
  }

  lemma PacketFits(s: Server, t: Tables, i: SessionId, request: Request, env: AuthEnv)
    requires Owned(s) && StreamsFit(s) && Alive(s.sessions, i)
    ensures StreamsFit(ProcessPacket(s, t, i, request, env).0)
  {
    if s.sessions[i].phase == WaitingForAuth {
      FirstPacketFits(s, t, i, request, env);
    } else {
      match request
      case Ping => TrafficFits(s, SendTo(s, i, Pong), {i}, [Pong]);
      case Move(flags, yaw) => TrafficFits(s, HandleMove(s, i, flags, yaw), {}, []);
      case ChatSay(channel, target, text) => ChatFits(s, i, channel, target, text);
      case _ =>
    }
  }

  lemma TickFits(s: Server, t: Tables, order: seq<EntityId>, failed: set<EntityId>)
    requires Owned(s) && StreamsFit(s) && Enumerates(order, s.world)
    ensures StreamsFit(Tick(s, t, order, failed).0)
  {
    TrafficFits(s, Tick(s, t, order, failed).0, Listening(s), StateMessages(Simulate(s.world), order));
  }

  lemma DestroyFits(s: Server, t: Tables, k: nat, failed: bool)
    requires Owned(s) && StreamsFit(s) && k < |s.pending|
    ensures StreamsFit(RunDestroy(s, t, k, failed).0)
  {
    TrafficFits(s, RunDestroy(s, t, k, failed).0, Listening(s), [PlayerLeave(s.world[s.pending[k]].data.characterId)]);
  }

  lemma AcceptFits(s: Server)
    requires Owned(s) && StreamsFit(s)
    ensures StreamsFit(Accept(s))
  {
    var s' := Accept(s);
    forall j | 0 <= j < |s'.sessions|
      ensures StreamFits(s', j)
    {
      if j < |s.sessions| {
        assert s'.sessions[j].sent == s.sessions[j].sent + [];
        StreamGrows(s, s', j, []);
      }
    }
  }

  lemma StepKeepsStreams(x: State, e: Event)
    requires Owned(x.server) && StreamsFit(x.server)
    ensures StreamsFit(Step(x, e).server)
  {
    if Enabled(x, e) {
      match e
      case Connect => AcceptFits(x.server);
      case Receive(i, request, _, _) => PacketFits(x.server, x.tables, i, request, Env(x, e));
      case TickEvent(order, failed) => TickFits(x.server, x.tables, order, failed);
      case DestroyEntity(k, failed) => DestroyFits(x.server, x.tables, k, failed);
      case DropSession(i) => TrafficFits(x.server, Drop(x.server, i), {}, []);
      case _ =>
    }
  }

  lemma {:induction false} RunKeepsStreams(x: State, run: seq<Event>)
    requires Owned(x.server) && StreamsFit(x.server)
    ensures StreamsFit(Exec(x, run).server)
  {
    if run != [] {
      var before := run[..|run| - 1];
      RunKeepsStreams(x, before);
      RunKeepsOwned(x, before);
      StepKeepsStreams(Exec(x, before), run[|run| - 1]);
    }
  }

  lemma StreamProtocolOf(s: Server, i: SessionId)
    requires Owned(s) && StreamsFit(s) && i < |s.sessions|
    ensures var session := s.sessions[i];
            && (session.phase == WaitingForAuth ==> Rejections(session.sent))
            && (session.phase == Authenticated ==> exists k: nat, c: nat :: EntersAt(session.sent, k, c))
            && session.phase != Disconnected
  {
    assert StreamFits(s, i);
  }

  /** On every stream of every run: rejections first, at most one AUTH_OK, which an
      unauthenticated session never gets, and all game traffic after it. */
  lemma StreamProtocol(x: State, run: seq<Event>, i: SessionId)
    requires Initial(x) && i < |Exec(x, run).server.sessions|
    ensures var session := Exec(x, run).server.sessions[i];
            && (session.phase == WaitingForAuth ==> Rejections(session.sent))
            && (session.phase == Authenticated ==> exists k: nat, c: nat :: EntersAt(session.sent, k, c))
            && session.phase != Disconnected
  {
    RunKeepsOwned(x, run);
    RunKeepsStreams(x, run);
    StreamProtocolOf(Exec(x, run).server, i);
  }

  // ----- pings and pongs -----

  function Pongs(ms: seq<Message>): nat {
    if ms == [] then 0 else Pongs(ms[..|ms| - 1]) + if ms[|ms| - 1].Pong? then 1 else 0
  }

  lemma {:induction false} PongsAdd(a: seq<Message>, b: seq<Message>)
    ensures Pongs(a + b) == Pongs(a) + Pongs(b)
  {
    if b == [] {
      assert a + b == a;
    } else {
      PongsAdd(a, b[..|b| - 1]);
      assert (a + b)[..|a + b| - 1] == a + b[..|b| - 1];
    }
  }

  lemma {:induction false} NoPongs(ms: seq<Message>)
    requires forall k | 0 <= k < |ms| :: !ms[k].Pong?
    ensures Pongs(ms) == 0
  {
    if ms != [] {
      NoPongs(ms[..|ms| - 1]);
    }
  }

  /** A ping of player `i` that is handled. */
  ghost predicate PingHeard(x: State, ev: Event, i: SessionId) {
    && ev.Receive? && ev.session == i && ev.request.Ping? && Enabled(x, ev)
    && x.server.sessions[i].phase == Authenticated
  }

  /** How many pings of player `i` a run handles. */
  ghost function PingsHeard(x: State, run: seq<Event>, i: SessionId): nat {
    if run == [] then 0
    else PingsHeard(x, run[..|run| - 1], i) +
         if PingHeard(Exec(x, run[..|run| - 1]), run[|run| - 1], i) then 1 else 0
  }

  /** The stream has got `more`. */
  predicate Answered(s: Server, s': Server, i: SessionId, more: seq<Message>) {
    i < |s.sessions| && i < |s'.sessions| && s'.sessions[i].sent == s.sessions[i].sent + more
  }

  lemma AnsweredPongs(s: Server, s': Server, i: SessionId, more: seq<Message>)
    requires Answered(s, s', i, more)
    ensures Pongs(s'.sessions[i].sent) == Pongs(s.sessions[i].sent) + Pongs(more)
  {
    PongsAdd(s.sessions[i].sent, more);
  }

  lemma PacketPongs(x: State, ev: Event, i: SessionId)
    requires ev.Receive? && Enabled(x, ev) && i < |x.server.sessions|
    requires x.server.sessions[ev.session].phase != Disconnected
    ensures |Receives(x, ev).server.sessions| == |x.server.sessions|
    ensures Pongs(Receives(x, ev).server.sessions[i].sent) ==
            Pongs(x.server.sessions[i].sent) + if PingHeard(x, ev, i) then 1 else 0
  {
    var s, s', j := x.server, Receives(x, ev).server, ev.session;
    if s.sessions[j].phase == WaitingForAuth {
      var a := AdmissionOf(x, ev);
      var answer := if a.Admitted? then AuthOk(a.characterId) else AuthFail;
      AnsweredPongs(s, s', i, if i == j && ev.request.GameAuth? then [answer] else []);
    } else if ev.request.ChatSay? && InWorld(s, j) {
      ChatPongs(s, j, ev.request.channel, ev.request.target, ev.request.text, i);
    } else {
      AnsweredPongs(s, s', i, if i == j && ev.request.Ping? then [Pong] else []);
    }
  }

  lemma ChatPongs(s: Server, j: SessionId, channel: Channel, target: Text, text: Text, i: SessionId)
    requires InWorld(s, j) && i < |s.sessions|
    ensures var s' := HandleChat(s, j, channel, target, text);
            i < |s'.sessions| && Pongs(s'.sessions[i].sent) == Pongs(s.sessions[i].sent)
  {
    var e, s' := EntityOf(s, j), HandleChat(s, j, channel, target, text);
    if s'.sessions[i].sent == s.sessions[i].sent + [] {
      AnsweredPongs(s, s', i, []);
    } else {
      AnsweredPongs(s, s', i, [Chat(channel, e.data.name, text)]);
    }
  }

  lemma TickPongs(s: Server, t: Tables, order: seq<EntityId>, failed: set<EntityId>, i: SessionId)
    requires i < |s.sessions| && forall e | e in order :: e in s.world
    ensures var s' := Tick(s, t, order, failed).0;
            i < |s'.sessions| && Pongs(s'.sessions[i].sent) == Pongs(s.sessions[i].sent)
  {
    var s', states := Tick(s, t, order, failed).0, StateMessages(Simulate(s.world), order);
    NoPongs(states);
    AnsweredPongs(s, s', i, if i in Listening(s) then states else []);
  }

  lemma DestroyPongs(s: Server, t: Tables, k: nat, failed: bool, i: SessionId)
    requires i < |s.sessions| && k < |s.pending|
    ensures var s' := RunDestroy(s, t, k, failed).0;
            i < |s'.sessions| && Pongs(s'.sessions[i].sent) == Pongs(s.sessions[i].sent)
  {
    var s', e := RunDestroy(s, t, k, failed).0, s.pending[k];
    if e in s.world && i in Listening(s) {
      AnsweredPongs(s, s', i, [PlayerLeave(s.world[e].data.characterId)]);
    } else {
      AnsweredPongs(s, s', i, []);
    }
  }

  lemma StepPongs(x: State, ev: Event, i: SessionId)
    requires Owned(x.server) && i < |Step(x, ev).server.sessions|
    ensures Pongs(Step(x, ev).server.sessions[i].sent) ==
            (if i < |x.server.sessions| then Pongs(x.server.sessions[i].sent) else 0) +
            if PingHeard(x, ev, i) then 1 else 0
  {
    if Enabled(x, ev) && i < |x.server.sessions| {
      match ev
      case Receive(_, _, _, _) => PacketPongs(x, ev, i);
      case TickEvent(order, failed) => TickPongs(x.server, x.tables, order, failed, i);
      case DestroyEntity(k, failed) => DestroyPongs(x.server, x.tables, k, failed, i);
      case _ =>
    }
  }

  lemma {:induction false} NoPingsBefore(x: State, run: seq<Event>, i: SessionId)
    requires Initial(x) && i >= |Exec(x, run).server.sessions|
    ensures PingsHeard(x, run, i) == 0
  {
    if run != [] {
      SessionsStay(Exec(x, run[..|run| - 1]), run[|run| - 1]);
      NoPingsBefore(x, run[..|run| - 1], i);
    }
  }

  lemma SessionsStay(x: State, ev: Event)
    ensures |x.server.sessions| <= |Step(x, ev).server.sessions|
  {
  }

  /** Every ping of a player is answered by one PONG on its own stream, and nothing else is. */
  lemma {:induction false} PongsArePings(x: State, run: seq<Event>, i: SessionId)
    requires Initial(x) && i < |Exec(x, run).server.sessions|
    ensures Pongs(Exec(x, run).server.sessions[i].sent) == PingsHeard(x, run, i)
  {
    var front, last := run[..|run| - 1], run[|run| - 1];
    RunKeepsOwned(x, front);
    StepPongs(Exec(x, front), last, i);
    if i < |Exec(x, front).server.sessions| {
      PongsArePings(x, front, i);
    } else {
      NoPingsBefore(x, front, i);
    }
  }

  // ----- entries and departures -----

  /** Records of one kind in the history. */
  function Entries(h: seq<Record>): nat {
    if h == [] then 0 else Entries(h[..|h| - 1]) + if h[|h| - 1].Entered? then 1 else 0
  }

  function Departures(h: seq<Record>): nat {
    if h == [] then 0 else Departures(h[..|h| - 1]) + if h[|h| - 1].Left? then 1 else 0
  }

  lemma CountsOfOneMore(h: seq<Record>, r: Record)
    ensures Entries(h + [r]) == Entries(h) + if r.Entered? then 1 else 0
    ensures Departures(h + [r]) == Departures(h) + if r.Left? then 1 else 0
  {
    assert (h + [r])[..|h|] == h;
  }

  ghost predicate Balanced(x: State) {
    Entries(x.history) == |x.server.world| + Departures(x.history)
  }

  lemma ReceiveKeepsBalance(x: State, e: Event)
    requires Owned(x.server) && Balanced(x) && e.Receive? && Enabled(x, e)
    ensures Balanced(Receives(x, e))
  {
    var s, s' := x.server, Receives(x, e).server;
    var a := AdmissionOf(x, e);
    if a.Admitted? {
      CountsOfOneMore(x.history, Entered(e.session, e.request.token, a.accountId, a.characterId, x.clock));
      assert s'.world.Keys == s.world.Keys + {s.nextEntity};
    } else {
      assert x.history + [] == x.history;
      assert s'.world.Keys == s.world.Keys;
    }
    assert |s'.world| == |s'.world.Keys|;
  }

  lemma DestroyKeepsBalance(x: State, k: nat, failed: bool)
    requires Owned(x.server) && Balanced(x) && k < |x.server.pending|
    ensures Balanced(Destroys(x, k, failed))
  {
    var d := x.server.pending[k];
    var x' := Destroys(x, k, failed);
    CountsOfOneMore(x.history, Left(x.server.world[d].data.characterId));
    assert x'.server.world.Keys == x.server.world.Keys - {d};
    assert |x'.server.world| == |x'.server.world.Keys|;
  }

  lemma StepKeepsBalance(x: State, e: Event)
    requires Owned(x.server) && Balanced(x)
    ensures Balanced(Step(x, e))
  {
    if Enabled(x, e) {
      match e
      case Receive(_, _, _, _) => ReceiveKeepsBalance(x, e);
      case DestroyEntity(k, failed) => DestroyKeepsBalance(x, k, failed);
      case TickEvent(order, failed) =>
        var w := Tick(x.server, x.tables, order, failed).0.world;
        assert w.Keys == x.server.world.Keys;
        assert |w| == |w.Keys|;
      case LoginCheck(username, _, _) =>
        CountsOfOneMore(x.history, Checked(|x.logins|, LeastKey(AccountsNamed(x.tables, username)).GetOr(0), x.clock));
      case LoginIssue(l, token, _) =>
        CountsOfOneMore(x.history, Issued(l, token, x.logins[l].accountId, x.clock));
      case _ =>
    }
  }

  /** World entries are conserved: each is still in the world or has had its LEAVE broadcast. */
  lemma {:induction false} EntriesAreConserved(x: State, run: seq<Event>)
    requires Initial(x)
    ensures Owned(Exec(x, run).server) && Balanced(Exec(x, run))
  {
    RunKeepsOwned(x, run);
    if run != [] {
      EntriesAreConserved(x, run[..|run| - 1]);
      StepKeepsBalance(Exec(x, run[..|run| - 1]), run[|run| - 1]);
    }
  }
}
