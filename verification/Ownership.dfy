/** Between strand steps every entity has exactly one owner, and the session list, session
    states and outgoing streams agree with one another. */
module Ownership {
  import opened Protocol
  import opened Database
  import opened World
  import opened System

  predicate Owns(s: Server, i: SessionId, e: EntityId) {
    Alive(s.sessions, i) && s.sessions[i].hasEntity && s.sessions[i].entityId == e
  }

  ghost predicate HasOwner(s: Server, e: EntityId) {
    exists i: SessionId :: Owns(s, i, e)
  }

  /** Entities are held by the AUTHENTICATED sessions, each its own. */
  ghost predicate SessionsHold(s: Server) {
    && (forall i | 0 <= i < |s.sessions| ::
          && s.sessions[i].phase != Disconnected
          && (s.sessions[i].hasEntity <==> s.sessions[i].phase == Authenticated)
          && (s.sessions[i].hasEntity ==> s.sessions[i].entityId < s.nextEntity))
    && (forall i, j | 0 <= i < j < |s.sessions| && s.sessions[i].hasEntity && s.sessions[j].hasEntity ::
          s.sessions[i].entityId != s.sessions[j].entityId)
  }

  /** Each entity belongs to a live session or to one posted destruction, never to both. */
  ghost predicate EntitiesOwned(s: Server) {
    && (forall e | e in s.world :: e < s.nextEntity && (e in s.pending || HasOwner(s, e)))
    && (forall e | e in s.pending :: e in s.world && !HasOwner(s, e))
    && (forall i: SessionId, e: EntityId | Owns(s, i, e) :: e in s.world)
    && NoDuplicates(s.pending)
  }

  /** g_sessions: no duplicates, and its live members are the live authenticated sessions. */
  ghost predicate RegistryExact(s: Server) {
    && NoDuplicates(s.registry)
    && (forall i | i in s.registry :: i < |s.sessions| && s.sessions[i].phase == Authenticated)
    && (forall i: SessionId | Alive(s.sessions, i) && s.sessions[i].phase == Authenticated :: i in s.registry)
  }

  ghost predicate Owned(s: Server) {
    SessionsHold(s) && EntitiesOwned(s) && RegistryExact(s)
  }

  // ----- pruning -----

  /** Pruning keeps the surviving sessions in their order, each once. */
  lemma {:induction false} PruneKeepsOrder(registry: seq<SessionId>, ss: seq<Session>)
    requires NoDuplicates(registry)
    ensures NoDuplicates(Prune(registry, ss))
    ensures forall i, j :: Precedes(Prune(registry, ss), i, j) <==>
              Precedes(registry, i, j) && Alive(ss, i) && Alive(ss, j)
  {
    if registry != [] {
      var rest := registry[1..];
      PruneKeepsOrder(rest, ss);
      var tail := Prune(rest, ss);
      assert registry[0] !in rest;
      assert registry == [registry[0]] + rest;
      PrecedesCons(registry[0], rest);
      PrecedesCons(registry[0], tail);
    }
  }

  /** `i` stands somewhere before `j`. */
  ghost predicate Precedes(s: seq<SessionId>, i: SessionId, j: SessionId) {
    exists m, n :: 0 <= m < n < |s| && s[m] == i && s[n] == j
  }

  lemma PrecedesCons(x: SessionId, s: seq<SessionId>)
    ensures forall i, j :: Precedes([x] + s, i, j) <==> (i == x && j in s) || Precedes(s, i, j)
  {
    var t := [x] + s;
    forall i, j
      ensures Precedes(t, i, j) <==> (i == x && j in s) || Precedes(s, i, j)
    {
      if Precedes(t, i, j) {
        var m, n :| 0 <= m < n < |t| && t[m] == i && t[n] == j;
        if m > 0 {
          assert s[m - 1] == i && s[n - 1] == j;
        }
      }
      if i == x && j in s {
        var n :| 0 <= n < |s| && s[n] == j;
        assert t[0] == i && t[n + 1] == j;
      }
      if Precedes(s, i, j) {
        var m, n :| 0 <= m < n < |s| && s[m] == i && s[n] == j;
        assert t[m + 1] == i && t[n + 1] == j;
      }
    }
  }

  // ----- every step -----

  /** Delivering does not touch ownership. */
  lemma DeliveryKeepsOwned(s: Server, to: set<SessionId>, msgs: seq<Message>)
    requires Owned(s)
    ensures Owned(s.(sessions := Deliver(s.sessions, to, msgs)))
  {
    var s' := s.(sessions := Deliver(s.sessions, to, msgs));
    assert forall i: SessionId, e: EntityId :: Owns(s', i, e) <==> Owns(s, i, e);
    assert forall e: EntityId :: HasOwner(s', e) <==> HasOwner(s, e);
  }

  /** Nor does pruning. */
  lemma PruningKeepsOwned(s: Server)
    requires Owned(s)
    ensures Owned(s.(registry := Prune(s.registry, s.sessions)))
  {
    PruneKeepsOrder(s.registry, s.sessions);
    var s' := s.(registry := Prune(s.registry, s.sessions));
    assert forall i: SessionId, e: EntityId :: Owns(s', i, e) <==> Owns(s, i, e);
    assert forall e: EntityId :: HasOwner(s', e) <==> HasOwner(s, e);
  }

  lemma BroadcastKeepsOwned(s: Server, to: set<SessionId>, msgs: seq<Message>)
    requires Owned(s)
    ensures Owned(s.(registry := Prune(s.registry, s.sessions), sessions := Deliver(s.sessions, to, msgs)))
  {
    PruningKeepsOwned(s);
    DeliveryKeepsOwned(s.(registry := Prune(s.registry, s.sessions)), to, msgs);
  }

  /** Nor does changing what is stored for the entities that exist. */
  lemma SameEntitiesKeepOwned(s: Server, s': Server)
    requires Owned(s)
    requires s'.world.Keys == s.world.Keys && s' == s.(world := s'.world, ticks := s'.ticks)
    ensures Owned(s')
  {
    assert forall i: SessionId, e: EntityId :: Owns(s', i, e) <==> Owns(s, i, e);
    assert forall e: EntityId :: HasOwner(s', e) <==> HasOwner(s, e);
  }

  /** Nor does a change to a session's stream or socket. */
  lemma SessionNoteKeepsOwned(s: Server, i: SessionId, open: bool, sent: seq<Message>)
    requires Owned(s) && i < |s.sessions|
    ensures Owned(Update(s, i, s.sessions[i].(open := open, sent := sent)))
  {
    var s' := Update(s, i, s.sessions[i].(open := open, sent := sent));
    assert forall j: SessionId, e: EntityId :: Owns(s', j, e) <==> Owns(s, j, e);
    assert forall e: EntityId :: HasOwner(s', e) <==> HasOwner(s, e);
  }

  lemma EnterKeepsOwned(s: Server, i: SessionId, a: Admission)
    requires Owned(s) && a.Admitted? && Alive(s.sessions, i) && s.sessions[i].phase == WaitingForAuth
    ensures Owned(Enter(s, i, a))
  {
    var s' := Enter(s, i, a);
    assert forall j: SessionId, e: EntityId :: Owns(s', j, e) <==> Owns(s, j, e) || (j == i && e == s.nextEntity);
    assert forall e: EntityId :: HasOwner(s, e) ==> HasOwner(s', e);
    assert Owns(s', i, s.nextEntity);
  }

  lemma DropKeepsOwned(s: Server, i: SessionId)
    requires Owned(s) && Alive(s.sessions, i)
    ensures Owned(Drop(s, i))
  {
    var s' := Drop(s, i);
    assert forall j: SessionId, e: EntityId :: Owns(s', j, e) <==> Owns(s, j, e) && j != i;
    if s.sessions[i].hasEntity {
      assert Owns(s, i, s.sessions[i].entityId);
    }
    forall e | e in s'.world
      ensures e in s'.pending || HasOwner(s', e)
    {
      if e !in s.pending {
        var j: SessionId :| Owns(s, j, e);
        assert j != i ==> Owns(s', j, e);
      }
    }
  }

  lemma DestroyKeepsOwned(s: Server, t: Tables, k: nat, failed: bool)
    requires Owned(s) && k < |s.pending|
    ensures Owned(RunDestroy(s, t, k, failed).0)
  {
    var e := s.pending[k];
    var s1 := s.(pending := s.pending[..k] + s.pending[k + 1..], world := s.world - {e});
    assert forall j: SessionId, d: EntityId :: Owns(s1, j, d) <==> Owns(s, j, d);
    assert forall d: EntityId :: HasOwner(s1, d) <==> HasOwner(s, d);
    assert forall d | d in s.pending :: d == e || d in s1.pending;
    assert e !in s1.pending;
    assert Owned(s1);
    BroadcastKeepsOwned(s1, Listening(s1), [PlayerLeave(s.world[e].data.characterId)]);
  }

  lemma FirstPacketKeepsOwned(s: Server, t: Tables, i: SessionId, request: Request, env: AuthEnv)
    requires Owned(s) && Alive(s.sessions, i) && s.sessions[i].phase == WaitingForAuth
    ensures Owned(ProcessPacket(s, t, i, request, env).0)
  {
    var session := s.sessions[i];
    if request.GameAuth? && Admit(t, request.token, env).Admitted? {
      EnterKeepsOwned(s, i, Admit(t, request.token, env));
    } else if request.GameAuth? {
      SessionNoteKeepsOwned(s, i, session.open, session.sent + [AuthFail]);
    } else {
      SessionNoteKeepsOwned(s, i, false, session.sent);
    }
  }

  lemma ChatKeepsOwned(s: Server, i: SessionId, channel: Channel, target: Text, text: Text)
    requires Owned(s)
    ensures Owned(HandleChat(s, i, channel, target, text))
  {
    if InWorld(s, i) {
      var e := EntityOf(s, i);
      BroadcastKeepsOwned(s, Hearers(s, channel, e.position.x, e.position.z, target),
                          [Chat(channel, e.data.name, text)]);
    }
  }

  lemma PacketKeepsOwned(s: Server, t: Tables, i: SessionId, request: Request, env: AuthEnv)
    requires Owned(s) && Alive(s.sessions, i)
    ensures Owned(ProcessPacket(s, t, i, request, env).0)
  {
    if s.sessions[i].phase == WaitingForAuth {
      FirstPacketKeepsOwned(s, t, i, request, env);
    } else {
      match request
      case Ping => SessionNoteKeepsOwned(s, i, s.sessions[i].open, s.sessions[i].sent + [Pong]);
      case Move(flags, yaw) => SameEntitiesKeepOwned(s, HandleMove(s, i, flags, yaw));
      case ChatSay(channel, target, text) => ChatKeepsOwned(s, i, channel, target, text);
      case _ =>
    }
  }

  lemma TickKeepsOwned(s: Server, t: Tables, order: seq<EntityId>, failed: set<EntityId>)
    requires Owned(s) && Enumerates(order, s.world)
    ensures Owned(Tick(s, t, order, failed).0)
  {
    var s1 := s.(world := Simulate(s.world), ticks := s.ticks + 1);
    SameEntitiesKeepOwned(s, s1);
    BroadcastKeepsOwned(s1, Listening(s1), StateMessages(s1.world, order));
  }

  lemma AcceptKeepsOwned(s: Server)
    requires Owned(s)
    ensures Owned(Accept(s))
  {
    var s' := Accept(s);
    assert forall i: SessionId, e: EntityId :: Owns(s', i, e) <==> Owns(s, i, e);
    assert forall e: EntityId :: HasOwner(s', e) <==> HasOwner(s, e);
  }

  lemma StepKeepsOwned(x: State, e: Event)
    requires Owned(x.server)
    ensures Owned(Step(x, e).server)
  {
    if Enabled(x, e) {
      match e
      case Connect => AcceptKeepsOwned(x.server);
      case Receive(i, request, _, _) => PacketKeepsOwned(x.server, x.tables, i, request, Env(x, e));
      case TickEvent(order, failed) => TickKeepsOwned(x.server, x.tables, order, failed);
      case DropSession(i) => DropKeepsOwned(x.server, i);
      case DestroyEntity(k, failed) => DestroyKeepsOwned(x.server, x.tables, k, failed);
      case _ =>
    }
  }

  /** The ownership invariant holds after every run. */
  lemma {:induction false} RunKeepsOwned(x: State, run: seq<Event>)
    requires Owned(x.server)
    ensures Owned(Exec(x, run).server)
  {
    if run != [] {
      RunKeepsOwned(x, run[..|run| - 1]);
      StepKeepsOwned(Exec(x, run[..|run| - 1]), run[|run| - 1]);
    }
  }

  /** Some run leads here from a state in which the invariant holds. */
  ghost predicate Reached(x: State) {
    exists trace: seq<State>, run: seq<Event> ::
      Traced(trace, run) && Owned(trace[0].server) && x == trace[|run|]
  }

  lemma OwnedIsReached(x: State)
    requires Owned(x.server)
    ensures Reached(x)
  {
    var trace: seq<State>, run: seq<Event> := [x], [];
    assert Traced(trace, run) && x == trace[|run|];
  }

  lemma ReachedIsOwned(x: State)
    requires Reached(x)
    ensures Owned(x.server)
  {
    var trace: seq<State>, run: seq<Event> :| Traced(trace, run) && Owned(trace[0].server) && x == trace[|run|];
    TracedIsExec(trace, run);
    RunKeepsOwned(trace[0], run);
  }

  lemma ReachedNext(x: State, ev: Event, y: State)
    requires Reached(x) && Leads(x, ev, y)
    ensures Reached(y)
  {
    LeadsIsStep(x, ev, y);
    ReachedIsOwned(x);
    StepKeepsOwned(x, ev);
    OwnedIsReached(y);
  }

  /** A session has an entity exactly when it is authenticated.  An entity has one live owner, which is
      authenticated, or one posted destruction, not both and no second one; and every live
      authenticated session owns an entity that exists. */
  ghost predicate OneOwnerEach(s: Server) {
    && (forall i | 0 <= i < |s.sessions| :: s.sessions[i].hasEntity <==> s.sessions[i].phase == Authenticated)
    && (forall e | e in s.world :: (e in s.pending) != HasOwner(s, e))
    && (forall i: SessionId, e: EntityId | Owns(s, i, e) :: s.sessions[i].phase == Authenticated && e in s.world)
    && (forall i: SessionId, j: SessionId, e: EntityId | Owns(s, i, e) && Owns(s, j, e) :: i == j)
    && (forall k, l | 0 <= k < |s.pending| && 0 <= l < |s.pending| && s.pending[k] == s.pending[l] :: k == l)
    && (forall i: SessionId | Alive(s.sessions, i) && s.sessions[i].phase == Authenticated ::
          s.sessions[i].entityId in s.world && Owns(s, i, s.sessions[i].entityId))
  }

  lemma OwnedMeansOneOwner(s: Server)
    requires Owned(s)
    ensures OneOwnerEach(s)
  {
    forall i: SessionId | Alive(s.sessions, i) && s.sessions[i].phase == Authenticated
      ensures s.sessions[i].entityId in s.world && Owns(s, i, s.sessions[i].entityId)
    {
      assert Owns(s, i, s.sessions[i].entityId);
    }
  }

  /** Ownership in every reachable state. */
  lemma EveryEntityHasOneOwner(x: State, run: seq<Event>)
    requires Initial(x)
    ensures OneOwnerEach(Exec(x, run).server) && RegistryExact(Exec(x, run).server)
  {
    RunKeepsOwned(x, run);
    OwnedMeansOneOwner(Exec(x, run).server);
  }
}
