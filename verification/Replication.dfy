/** Every live player's replica mirrors the authoritative world, in every reachable state. */
module Replication {
  import opened Protocol
  import opened Database
  import opened World
  import opened System
  import opened Ownership
  import opened Streams
  import opened Replica

  /** Some entity of the world plays character `c` and stands exactly at `p`. */
  ghost predicate Shown(world: map<EntityId, Entity>, c: nat, p: Position) {
    exists e :: e in world && world[e].data.characterId == c && world[e].position == p
  }

  function Characters(world: map<EntityId, Entity>): set<nat> {
    set e | e in world :: world[e].data.characterId
  }

  function Plays(s: Server, i: SessionId): nat
    requires InWorld(s, i)
  {
    EntityOf(s, i).data.characterId
  }

  /** What session `i`'s client has made of everything sent to it. */
  function ViewOf(s: Server, i: SessionId): View
    requires i < |s.sessions|
  {
    Fold(START, s.sessions[i].sent)
  }

  /** The view knows who it is, does not track itself, and shows only what stands. */
  ghost predicate Reflects(v: View, world: map<EntityId, Entity>, self: nat) {
    && v.inWorld && v.self == self && v.local.Some? && self !in v.remote
    && forall c | c in v.remote :: Shown(world, c, v.remote[c])
  }

  predicate Playing(s: Server, i: SessionId) {
    Alive(s.sessions, i) && s.sessions[i].phase == Authenticated
  }

  ghost predicate Mirrored(s: Server) {
    forall i: SessionId | Playing(s, i) :: InWorld(s, i) && Reflects(ViewOf(s, i), s.world, Plays(s, i))
  }

  // ----- folding what one step sends -----

  lemma {:induction false} FoldRejections(ms: seq<Message>)
    requires Rejections(ms)
    ensures Fold(START, ms) == START
  {
    if ms != [] {
      FoldRejections(ms[..|ms| - 1]);
    }
  }

  /** Folding one tick's STATEs: exactly the visited characters other than `self` are shown
      afterwards, on top of what was, each where one of its entities stands. */
  lemma {:induction false} FoldStates(v: View, world: map<EntityId, Entity>, order: seq<EntityId>)
    requires forall e | e in order :: e in world
    requires v.inWorld && v.local.Some? && v.self !in v.remote
    ensures var v' := Fold(v, StateMessages(world, order));
            && v'.inWorld && v'.self == v.self && v'.local.Some?
            && v'.remote.Keys == v.remote.Keys + (set e | e in order :: world[e].data.characterId) - {v.self}
            && (forall c | c in v'.remote ::
                  (c in v.remote && v.remote[c] == v'.remote[c] &&
                   forall e | e in order :: world[e].data.characterId != c)
                  || Shown(world, c, v'.remote[c]))
            && ((exists e :: e in order && world[e].data.characterId == v.self) ==>
                  Shown(world, v.self, v'.local.value))
  {
    if order != [] {
      var rest, e := order[..|order| - 1], order[|order| - 1];
      var ms := StateMessages(world, order);
      assert ms[..|ms| - 1] == StateMessages(world, rest);
      FoldStates(v, world, rest);
      var c := world[e].data.characterId;
      assert forall d :: d in order <==> d in rest || d == e;
      assert (set d | d in order :: world[d].data.characterId) ==
        (set d | d in rest :: world[d].data.characterId) + {c};
      assert Shown(world, c, world[e].position);
    }
  }

  // ----- steps -----

  /** The world changed only so that whatever stood still stands, and nothing was said. */
  lemma QuietStepMirrors(s: Server, s': Server)
    requires Mirrored(s)
    requires forall e | e in s.world ::
               e in s'.world && s'.world[e].data == s.world[e].data && s'.world[e].position == s.world[e].position
    requires forall i: SessionId | Playing(s', i) ::
               && Playing(s, i) && s'.sessions[i].entityId == s.sessions[i].entityId && s'.sessions[i].hasEntity
               && (s'.sessions[i].sent == s.sessions[i].sent
                   || exists m: Message :: (m.Chat? || m.Pong?) && s'.sessions[i].sent == s.sessions[i].sent + [m])
    ensures Mirrored(s')
  {
    forall i: SessionId | Playing(s', i)
      ensures InWorld(s', i) && Reflects(ViewOf(s', i), s'.world, Plays(s', i))
    {
      assert InWorld(s, i);
      if s'.sessions[i].sent != s.sessions[i].sent {
        var m: Message :| (m.Chat? || m.Pong?) && s'.sessions[i].sent == s.sessions[i].sent + [m];
        FoldOne(START, s.sessions[i].sent, m);
      }
      var v := ViewOf(s, i);
      forall c | c in v.remote
        ensures Shown(s'.world, c, v.remote[c])
      {
        var e :| e in s.world && s.world[e].data.characterId == c && s.world[e].position == v.remote[c];
        assert e in s'.world;
      }
    }
  }

  lemma EnterMirrors(s: Server, i: SessionId, a: Admission)
    requires Owned(s) && StreamsFit(s) && Mirrored(s)
    requires Alive(s.sessions, i) && s.sessions[i].phase == WaitingForAuth && a.Admitted?
    ensures Mirrored(Enter(s, i, a))
  {
    var s' := Enter(s, i, a);
    forall j: SessionId | Playing(s', j)
      ensures InWorld(s', j) && Reflects(ViewOf(s', j), s'.world, Plays(s', j))
    {
      if j == i {
        assert StreamFits(s, i);
        FoldRejections(s.sessions[i].sent);
        FoldOne(START, s.sessions[i].sent, AuthOk(a.characterId));
      } else {
        assert Playing(s, j);
        var v := ViewOf(s, j);
        forall c | c in v.remote
          ensures Shown(s'.world, c, v.remote[c])
        {
          var e :| e in s.world && s.world[e].data.characterId == c && s.world[e].position == v.remote[c];
          assert e in s'.world;
        }
      }
    }
  }

  lemma PacketMirrors(s: Server, t: Tables, i: SessionId, request: Request, env: AuthEnv)
    requires Owned(s) && StreamsFit(s) && Mirrored(s) && Alive(s.sessions, i)
    ensures Mirrored(ProcessPacket(s, t, i, request, env).0)
  {
    if s.sessions[i].phase == WaitingForAuth && request.GameAuth? && Admit(t, request.token, env).Admitted? {
      EnterMirrors(s, i, Admit(t, request.token, env));
    } else {
      QuietStepMirrors(s, ProcessPacket(s, t, i, request, env).0);
    }
  }

  /** Folding a LEAVE for the entity that goes away. */
  lemma LeaveReflects(v: View, world: map<EntityId, Entity>, self: nat, d: EntityId)
    requires Reflects(v, world, self) && d in world
    ensures Reflects(Handle(v, PlayerLeave(world[d].data.characterId)), world - {d}, self)
  {
    var gone := world[d].data.characterId;
    forall c | c in v.remote && c != gone
      ensures Shown(world - {d}, c, v.remote[c])
    {
      var e :| e in world && world[e].data.characterId == c && world[e].position == v.remote[c];
      assert e in world - {d};
    }
  }

  lemma DestroyMirrors(s: Server, t: Tables, k: nat, failed: bool)
    requires Owned(s) && Mirrored(s) && k < |s.pending|
    ensures Mirrored(RunDestroy(s, t, k, failed).0)
  {
    var d := s.pending[k];
    var leave := PlayerLeave(s.world[d].data.characterId);
    var s' := RunDestroy(s, t, k, failed).0;
    forall i: SessionId | Playing(s', i)
      ensures InWorld(s', i) && Reflects(ViewOf(s', i), s'.world, Plays(s', i))
    {
      assert Playing(s, i) && i in Listening(s);
      assert Owns(s, i, s.sessions[i].entityId);
      assert s'.sessions[i].sent == s.sessions[i].sent + [leave];
      FoldOne(START, s.sessions[i].sent, leave);
      LeaveReflects(ViewOf(s, i), s.world, Plays(s, i), d);
    }
  }

  /** Right after a tick a view shows all other characters, and its own entity too. */
  ghost predicate Complete(v: View, world: map<EntityId, Entity>, self: nat) {
    v.remote.Keys == Characters(world) - {self} && v.local.Some? && Shown(world, self, v.local.value)
  }

  /** Folding one tick's STATEs into a view of the world before it. */
  lemma StatesReflect(v: View, before: map<EntityId, Entity>, world: map<EntityId, Entity>, order: seq<EntityId>,
                      self: nat)
    requires Reflects(v, before, self) && self in Characters(world)
    requires before.Keys == world.Keys && forall e | e in world :: world[e].data == before[e].data
    requires Enumerates(order, world)
    ensures Reflects(Fold(v, StateMessages(world, order)), world, self)
    ensures Complete(Fold(v, StateMessages(world, order)), world, self)
  {
    FoldStates(v, world, order);
    assert (set e | e in order :: world[e].data.characterId) == Characters(world);
    forall c | c in v.remote
      ensures c in Characters(world)
    {
      assert Shown(before, c, v.remote[c]);
      var e :| e in before && before[e].data.characterId == c && before[e].position == v.remote[c];
      assert world[e].data.characterId == c;
    }
    var own :| own in world && world[own].data.characterId == self;
    assert own in order;
  }

  /** One live player through one tick: its stream grows by exactly the tick's STATEs. */
  lemma TickReaches(s: Server, t: Tables, order: seq<EntityId>, failed: set<EntityId>)
    requires Owned(s) && Enumerates(order, s.world)
    ensures var s' := Tick(s, t, order, failed).0;
            && s'.world.Keys == s.world.Keys && (forall e | e in s.world :: s'.world[e].data == s.world[e].data)
            && (forall i: SessionId :: Playing(s', i) <==> Playing(s, i))
            && (forall i: SessionId | Playing(s, i) ::
                  && s'.sessions[i].sent == s.sessions[i].sent + StateMessages(s'.world, order)
                  && s'.sessions[i].hasEntity == s.sessions[i].hasEntity
                  && s'.sessions[i].entityId == s.sessions[i].entityId)
  {
    forall i: SessionId | Playing(s, i)
      ensures i in Listening(s) && order != []
    {
      assert Owns(s, i, s.sessions[i].entityId);
      assert s.sessions[i].entityId in order;
    }
  }

  lemma StatesMirror(s: Server, s': Server, order: seq<EntityId>, i: SessionId)
    requires Mirrored(s) && Playing(s, i) && Playing(s', i) && Enumerates(order, s.world)
    requires s'.world.Keys == s.world.Keys && forall e | e in s.world :: s'.world[e].data == s.world[e].data
    requires s'.sessions[i].sent == s.sessions[i].sent + StateMessages(s'.world, order)
    requires s'.sessions[i].hasEntity == s.sessions[i].hasEntity && s'.sessions[i].entityId == s.sessions[i].entityId
    ensures InWorld(s', i) && Reflects(ViewOf(s', i), s'.world, Plays(s', i))
    ensures Complete(ViewOf(s', i), s'.world, Plays(s', i))
  {
    FoldConcat(START, s.sessions[i].sent, StateMessages(s'.world, order));
    StatesReflect(ViewOf(s, i), s.world, s'.world, order, Plays(s, i));
  }

  lemma TickMirrors(s: Server, t: Tables, order: seq<EntityId>, failed: set<EntityId>)
    requires Owned(s) && Mirrored(s) && Enumerates(order, s.world)
    ensures var s' := Tick(s, t, order, failed).0;
            Mirrored(s') &&
            forall i: SessionId | Playing(s', i) :: InWorld(s', i) && Complete(ViewOf(s', i), s'.world, Plays(s', i))
  {
    var s' := Tick(s, t, order, failed).0;
    TickReaches(s, t, order, failed);
    forall i: SessionId | Playing(s', i)
      ensures InWorld(s', i) && Reflects(ViewOf(s', i), s'.world, Plays(s', i)) &&
              Complete(ViewOf(s', i), s'.world, Plays(s', i))
    {
      StatesMirror(s, s', order, i);
    }
  }

  lemma StepMirrors(x: State, e: Event)
    requires Owned(x.server) && StreamsFit(x.server) && Mirrored(x.server)
    ensures Mirrored(Step(x, e).server)
  {
    if Enabled(x, e) {
      match e
      case Connect => QuietStepMirrors(x.server, Accept(x.server));
      case Receive(i, request, _, _) => PacketMirrors(x.server, x.tables, i, request, Env(x, e));
      case TickEvent(order, failed) => TickMirrors(x.server, x.tables, order, failed);
      case DropSession(i) => QuietStepMirrors(x.server, Drop(x.server, i));
      case DestroyEntity(k, failed) => DestroyMirrors(x.server, x.tables, k, failed);
      case _ =>
    }
  }

  lemma {:induction false} RunMirrors(x: State, run: seq<Event>)
    requires Owned(x.server) && StreamsFit(x.server) && Mirrored(x.server)
    ensures Mirrored(Exec(x, run).server)
  {
    if run != [] {
      var before := run[..|run| - 1];
      RunMirrors(x, before);
      RunKeepsOwned(x, before);
      RunKeepsStreams(x, before);
      StepMirrors(Exec(x, before), run[|run| - 1]);
    }
  }

  /** Replication safety.  After any run, for every live player: the client knows its own
      character, tracks only other characters that are in the world, and shows each of them
      at the current position of one of its entities. */
  lemma ReplicasReflectTheWorld(x: State, run: seq<Event>, i: SessionId)
    requires Initial(x) && Playing(Exec(x, run).server, i)
    ensures var s := Exec(x, run).server;
            && InWorld(s, i)
            && Reflects(ViewOf(s, i), s.world, Plays(s, i))
            && ViewOf(s, i).remote.Keys <= Characters(s.world) - {Plays(s, i)}
  {
    RunMirrors(x, run);
    ShownAreCharacters(Exec(x, run).server, i);
  }

  lemma ShownAreCharacters(s: Server, i: SessionId)
    requires Mirrored(s) && Playing(s, i)
    ensures ViewOf(s, i).remote.Keys <= Characters(s.world) - {Plays(s, i)}
  {
    var v := ViewOf(s, i);
    forall c | c in v.remote
      ensures c in Characters(s.world)
    {
      assert Shown(s.world, c, v.remote[c]);
    }
  }

  /** Replication completeness.  Right after a tick, the tracked characters are exactly the
      others in the world, duplicates or not, and the local player stands where the server
      has (one of) its own. */
  lemma ReplicasCompleteAfterTick(x: State, run: seq<Event>, e: Event, i: SessionId)
    requires Initial(x) && e.TickEvent? && Enabled(Exec(x, run), e)
    requires Playing(Exec(x, run + [e]).server, i)
    ensures var s := Exec(x, run + [e]).server;
            && InWorld(s, i)
            && ViewOf(s, i).remote.Keys == Characters(s.world) - {Plays(s, i)}
            && Complete(ViewOf(s, i), s.world, Plays(s, i))
  {
    var y := Exec(x, run);
    ExecSnoc(x, run, e);
    RunKeepsOwned(x, run);
    RunMirrors(x, run);
    TickMirrors(y.server, y.tables, e.order, e.failed);
  }

  ghost predicate UniqueCharacters(world: map<EntityId, Entity>) {
    forall d, e | d in world && e in world && world[d].data.characterId == world[e].data.characterId :: d == e
  }

  /** With unique live characters each replica position is the server's current one. */
  lemma UniqueReplicasAreExact(x: State, run: seq<Event>, i: SessionId, e: EntityId)
    requires Initial(x) && Playing(Exec(x, run).server, i)
    requires UniqueCharacters(Exec(x, run).server.world) && e in Exec(x, run).server.world
    ensures var s := Exec(x, run).server;
            s.world[e].data.characterId in ViewOf(s, i).remote ==>
              ViewOf(s, i).remote[s.world[e].data.characterId] == s.world[e].position
  {
    RunMirrors(x, run);
    var s := Exec(x, run).server;
    var v, c := ViewOf(s, i), s.world[e].data.characterId;
    if c in v.remote {
      assert Shown(s.world, c, v.remote[c]);
    }
  }
}
