/** The client's logic thread: it drains the mailbox into its own entity registry, predicts
    the local player, publishes a snapshot for the renderer and reports the keys held.  Module
    Replica is the specification of the drain. */
module LogicThread {
  import opened Protocol
  import opened Movement
  import opened Wire
  import opened Framing
  import opened Replica

  type EntityRef = nat

  datatype Keys = Keys(left: bool, right: bool, up: bool, down: bool)

  datatype PlayerRenderState = PlayerRenderState(characterId: nat, x: real, y: real, z: real, isLocal: bool)

  /** How the four bytes of a yaw and the sixteen of a position are read. */
  datatype Floats = Floats(angle: Text -> Angle, position: Text -> Position)

  function MessagesOf(ps: seq<Packet>, floats: Floats): (ms: seq<Message>)
    ensures |ms| == |ps|
    ensures forall k | 0 <= k < |ps| :: ms[k] == ClientReads(ps[k], floats.position)
  {
    seq(|ps|, k requires 0 <= k < |ps| => ClientReads(ps[k], floats.position))
  }

  /** The local player after one prediction step; the others and the identity stay. */
  function Predicted(v: View, flags: byte, yaw: Angle): View {
    if v.local.None? then v
    else
      var p := v.local.value;
      var to := ApplyMoveFlags(Vec2(p.x, p.z), flags, CLIENT_STEP, yaw);
      v.(local := Some(Position(to.x, p.y, to.z, yaw)))
  }

  /** One step of prediction in coordinates, a 64th of a second at 1.28 units a second: the keys held add
      what they add at the camera's heading, which the player turns to; height, others and identity
      stay. */
  predicate PredictsStep(v: View, w: View, keys: Keys, yaw: Angle) {
    && w.inWorld == v.inWorld && w.self == v.self && w.remote == v.remote && v.local.Some? && w.local.Some?
    && var p, q := v.local.value, w.local.value;
    && KeysAdd(Vec2(p.x, p.z), Vec2(q.x, q.z), keys.up, keys.down, keys.left, keys.right,
               yaw.sin * (1.28 / 64.0), yaw.cos * (1.28 / 64.0))
    && q.y == p.y && q.yaw == yaw
  }

  lemma PredictedInCoordinates(v: View, keys: Keys, yaw: Angle)
    requires v.local.Some?
    ensures PredictsStep(v, Predicted(v, FlagsOf(keys), yaw), keys, yaw)
  {
    var p := v.local.value;
    StepByKeys(Vec2(p.x, p.z), FlagsOf(keys), CLIENT_STEP, yaw);
    assert CLIENT_STEP == 1.28 / 64.0;
  }

  /** The four key states as one byte of flags. */
  function FlagsOf(keys: Keys): (flags: byte)
    ensures Has(flags, LEFT) == keys.left && Has(flags, RIGHT) == keys.right
    ensures Has(flags, UP) == keys.up && Has(flags, DOWN) == keys.down
  {
    (if keys.left then LEFT else 0) + (if keys.right then RIGHT else 0) + (if keys.up then UP else 0) +
      (if keys.down then DOWN else 0)
  }

  /** What a published snapshot says: the local player first and only once, then exactly the
      tracked players, each once, with their positions. */
  ghost predicate Shows(snapshot: seq<PlayerRenderState>, v: View) {
    && v.local.Some?
    && |snapshot| == 1 + |v.remote|
    && snapshot[0].characterId == v.self && snapshot[0].isLocal
    && (snapshot[0].x, snapshot[0].y, snapshot[0].z) == (v.local.value.x, v.local.value.y, v.local.value.z)
    && (forall k | 1 <= k < |snapshot| ::
          && snapshot[k].characterId in v.remote && !snapshot[k].isLocal
          && var p := v.remote[snapshot[k].characterId];
             snapshot[k].x == p.x && snapshot[k].y == p.y && snapshot[k].z == p.z)
    && (forall j, k | 1 <= j < k < |snapshot| :: snapshot[j].characterId != snapshot[k].characterId)
  }

  ghost predicate RepeatsNoId(snapshot: seq<PlayerRenderState>) {
    forall j, k | 0 <= j < k < |snapshot| :: snapshot[j].characterId != snapshot[k].characterId
  }

  // ----- the registry as a value -----

  /** The entities, the local player's, and the one that shows each other player. */
  datatype Registry = Registry(valid: set<EntityRef>, transforms: map<EntityRef, Position>, next: EntityRef,
                               local: Option<EntityRef>, remote: map<nat, EntityRef>)

  /** Mapped entities are valid, pairwise distinct and distinct from the local player's. */
  ghost predicate Sound(r: Registry) {
    && r.transforms.Keys == r.valid
    && (forall e | e in r.valid :: e < r.next)
    && (r.local.Some? ==> r.local.value in r.valid)
    && (forall id | id in r.remote :: r.remote[id] in r.valid && r.local != Some(r.remote[id]))
    && (forall a, b | a in r.remote && b in r.remote && a != b :: r.remote[a] != r.remote[b])
  }

  ghost function LocalOf(r: Registry): Option<Position>
    requires Sound(r)
  {
    if r.local.Some? then Some(r.transforms[r.local.value]) else None
  }

  ghost function OthersOf(r: Registry): map<nat, Position>
    requires Sound(r)
  {
    map id | id in r.remote :: r.transforms[r.remote[id]]
  }

  function Created(r: Registry, p: Position): Registry {
    r.(valid := r.valid + {r.next}, transforms := r.transforms[r.next := p], next := r.next + 1)
  }

  lemma LocalIsSpawned(r: Registry, p: Position)
    requires Sound(r)
    ensures var r' := Created(r, p).(local := Some(r.next));
            Sound(r') && LocalOf(r') == Some(p) && OthersOf(r') == OthersOf(r)
  {
  }

  lemma OtherIsSpawned(r: Registry, id: nat, p: Position)
    requires Sound(r) && id !in r.remote
    ensures var r' := Created(r, p).(remote := r.remote[id := r.next]);
            Sound(r') && LocalOf(r') == LocalOf(r) && OthersOf(r') == OthersOf(r)[id := p]
  {
  }

  lemma LocalIsMoved(r: Registry, p: Position)
    requires Sound(r) && r.local.Some?
    ensures var r' := r.(transforms := r.transforms[r.local.value := p]);
            Sound(r') && LocalOf(r') == Some(p) && OthersOf(r') == OthersOf(r)
  {
  }

  lemma OtherIsMoved(r: Registry, id: nat, p: Position)
    requires Sound(r) && id in r.remote
    ensures var r' := r.(transforms := r.transforms[r.remote[id] := p]);
            Sound(r') && LocalOf(r') == LocalOf(r) && OthersOf(r') == OthersOf(r)[id := p]
  {
  }

  lemma OtherIsForgotten(r: Registry, id: nat)
    requires Sound(r) && id in r.remote
    ensures var e := r.remote[id];
            var r' := r.(valid := r.valid - {e}, transforms := r.transforms - {e}, remote := r.remote - {id});
            Sound(r') && LocalOf(r') == LocalOf(r) && OthersOf(r') == OthersOf(r) - {id}
  {
  }

  class LogicThread {
    const network: NetworkManager
    const floats: Floats
    // client_registry
    var valid: set<EntityRef>
    var transforms: map<EntityRef, Position>
    var nextEntity: EntityRef
    // the thread's locals
    var localPlayer: Option<EntityRef>
    var localCharacterId: nat
    var remotePlayers: map<nat, EntityRef>
    var inWorld: bool
    // the connects asked for so far, each with the token its callback has captured, and the renderer's
    // copy of the players
    var redirects: seq<Redirect>
    var players: seq<PlayerRenderState>

    constructor (network: NetworkManager, floats: Floats)
      ensures Valid() && ViewNow() == START && this.network == network && this.floats == floats
      ensures redirects == [] && players == []
    {
      this.network, this.floats := network, floats;
      valid, transforms, nextEntity := {}, map[], 0;
      localPlayer, localCharacterId, remotePlayers, inWorld := None, 0, map[], false;
      redirects, players := [], [];
    }

    function Now(): Registry
      reads this`valid, this`transforms, this`nextEntity, this`localPlayer, this`remotePlayers
    {
      Registry(valid, transforms, nextEntity, localPlayer, remotePlayers)
    }

    /** The registry is sound, being in the world means having a local player, and captured tokens are
        whole. */
    ghost predicate Valid()
      reads this`valid, this`transforms, this`nextEntity, this`localPlayer, this`remotePlayers, this`inWorld,
            this`redirects
    {
      && Sound(Now()) && (inWorld <==> localPlayer.Some?)
      && (forall k | 0 <= k < |redirects| :: |redirects[k].token| == TOKEN_LENGTH)
    }

    ghost function ViewNow(): View
      requires Valid()
      reads this`valid, this`transforms, this`nextEntity, this`localPlayer, this`remotePlayers, this`inWorld,
            this`redirects, this`localCharacterId
    {
      View(inWorld, localCharacterId, LocalOf(Now()), OthersOf(Now()))
    }

    method Create(p: Position) returns (e: EntityRef)
      modifies this`valid, this`transforms, this`nextEntity
      ensures e == old(nextEntity) && Now() == Created(old(Now()), p)
    {
      e := nextEntity;
      valid, transforms, nextEntity := valid + {e}, transforms[e := p], e + 1;
    }

    /** SMSG_GAME_AUTH_OK.  A second one spawns a second local entity and leaves the first. */
    method OnAuthOk(payload: Text)
      requires Valid()
      modifies this`valid, this`transforms, this`nextEntity, this`localPlayer, this`inWorld, this`localCharacterId
      ensures Valid()
      ensures ViewNow() == Handle(old(ViewNow()),
                                  if |payload| >= 4 then AuthOk(GetU32(payload[..4])) else AuthOkTruncated)
    {
      LocalIsSpawned(Now(), ORIGIN);
      if |payload| >= 4 {
        localCharacterId := GetU32(payload[..4]);
      }
      inWorld := true;
      var e := Create(ORIGIN);
      localPlayer := Some(e);
    }

    /** The entity showing another player, created on first sight. */
    method Tracked(id: nat) returns (remote: EntityRef)
      requires Sound(Now())
      modifies this`valid, this`transforms, this`nextEntity, this`remotePlayers
      ensures Sound(Now()) && id in remotePlayers && remotePlayers[id] == remote
      ensures LocalOf(Now()) == old(LocalOf(Now()))
      ensures OthersOf(Now()) == if id in old(remotePlayers) then old(OthersOf(Now()))
                                 else old(OthersOf(Now()))[id := ORIGIN]
    {
      if id in remotePlayers {
        remote := remotePlayers[id];
      } else {
        OtherIsSpawned(Now(), id, ORIGIN);
        remote := Create(ORIGIN);
        remotePlayers := remotePlayers[id := remote];
      }
    }

    /** A STATE about somebody else. */
    method ShowOther(id: nat, p: Position)
      requires Sound(Now())
      modifies this`valid, this`transforms, this`nextEntity, this`remotePlayers
      ensures Sound(Now()) && LocalOf(Now()) == old(LocalOf(Now())) && OthersOf(Now()) == old(OthersOf(Now()))[id := p]
    {
      var remote := Tracked(id);
      OtherIsMoved(Now(), id, p);
      transforms := transforms[remote := p];
    }

    /** SMSG_PLAYER_STATE with a whole payload. */
    method OnState(id: nat, p: Position)
      requires Valid()
      modifies this`valid, this`transforms, this`nextEntity, this`remotePlayers
      ensures Valid() && ViewNow() == Handle(old(ViewNow()), PlayerState(id, p))
    {
      if inWorld && id == localCharacterId && localPlayer.Some? && localPlayer.value in valid {
        LocalIsMoved(Now(), p);
        transforms := transforms[localPlayer.value := p];
      } else if inWorld && id != localCharacterId {
        ShowOther(id, p);
      }
    }

    /** SMSG_PLAYER_LEAVE with a whole payload. */
    method OnLeave(id: nat)
      requires Valid()
      modifies this`valid, this`transforms, this`remotePlayers
      ensures Valid() && ViewNow() == Handle(old(ViewNow()), PlayerLeave(id))
    {
      if id in remotePlayers {
        OtherIsForgotten(Now(), id);
        var e := remotePlayers[id];
        if e in valid {
          valid, transforms := valid - {e}, transforms - {e};
        }
        remotePlayers := remotePlayers - {id};
      }
    }

    /** One packet off the mailbox. */
    method HandlePacket(packet: Packet)
      requires Valid()
      modifies this`valid, this`transforms, this`nextEntity, this`localPlayer, this`remotePlayers,
               this`inWorld, this`localCharacterId, this`redirects
      ensures Valid() && ViewNow() == Handle(old(ViewNow()), ClientReads(packet, floats.position))
      ensures redirects == old(redirects) + if ReadRedirect(packet).Some? then [ReadRedirect(packet).value] else []
    {
      var payload := packet.payload;
      if packet.opcode == SMSG_AUTH_RESPONSE && |payload| >= 50 {
        redirects := redirects + [Redirect(CString(payload[..16]), GetU16(payload[16..18]), payload[18..50])];
      } else if packet.opcode == SMSG_GAME_AUTH_OK {
        OnAuthOk(payload);
      } else if packet.opcode == SMSG_GAME_AUTH_FAIL {
      } else if packet.opcode == SMSG_PLAYER_STATE {
        if |payload| >= 20 {
          OnState(GetU32(payload[..4]), floats.position(payload[4..20]));
        }
      } else if packet.opcode == SMSG_PLAYER_LEAVE {
        if |payload| >= 4 {
          OnLeave(GetU32(payload[..4]));
        }
      }
    }

    /** The drain loop: the replica is the fold over everything that was in the mailbox. */
    method Drain()
      requires Valid()
      modifies this`valid, this`transforms, this`nextEntity, this`localPlayer, this`remotePlayers,
               this`inWorld, this`localCharacterId, this`redirects, network.inbound
      ensures Valid() && network.inbound.queue == []
      ensures ViewNow() == Fold(old(ViewNow()), MessagesOf(old(network.inbound.queue), floats))
    {
      ghost var all, v, n := network.inbound.queue, ViewNow(), 0;
      assert all[..0] == [] && all[0..] == all;
      var packet := network.inbound.TryPop();
      while packet.Some?
        invariant Valid() && 0 <= n <= |all|
        invariant packet.Some? ==> n < |all| && packet.value == all[n] && network.inbound.queue == all[n + 1..]
        invariant packet.None? ==> n == |all| && network.inbound.queue == []
        invariant ViewNow() == Fold(v, MessagesOf(all[..n], floats))
        decreases |all| - n
      {
        HandlePacket(packet.value);
        assert MessagesOf(all[..n + 1], floats) == MessagesOf(all[..n], floats) +
          [ClientReads(all[n], floats.position)];
        FoldOne(v, MessagesOf(all[..n], floats), ClientReads(all[n], floats.position));
        n := n + 1;
        packet := network.inbound.TryPop();
      }
      assert all[..|all|] == all;
    }

    /** The network thread takes up the `k`-th redirect: the old connection is closed first. */
    method OnRedirect(k: nat)
      requires Valid() && k < |redirects|
      modifies network`open
      ensures Valid() && !network.open
    {
      network.Disconnect();
    }

    /** A connect asked for by the `k`-th redirect succeeds: its callback sends the token it captured,
        as the first thing on the new connection. */
    method OnConnected(k: nat)
      requires Valid() && k < |redirects|
      modifies network
      ensures Valid() && network.Valid() && network.open && network.Unparsed() == []
      ensures network.written == Encode(GameAuthPacket(redirects[k].token))
    {
      network.OnConnect();
      network.SendPacket(HEADER_SIZE + TOKEN_LENGTH, CMSG_GAME_AUTH, redirects[k].token);
    }

    /** A redirect followed to its end, whether or not the connect succeeds: on the old connection nothing
        more is sent, and on the new one the token comes first. */
    method Follow(k: nat, succeeds: bool)
      requires Valid() && k < |redirects|
      modifies network
      ensures Valid() && network.open == succeeds
      ensures succeeds ==> network.written == Encode(GameAuthPacket(redirects[k].token))
      ensures !succeeds ==> network.written == old(network.written)
    {
      OnRedirect(k);
      if succeeds {
        OnConnected(k);
      }
    }

    /** Prediction of the local player under the camera's heading. */
    method Predict(e: EntityRef, flags: byte, yaw: Angle)
      requires Valid() && localPlayer == Some(e)
      modifies this`transforms
      ensures Valid() && ViewNow() == Predicted(old(ViewNow()), flags, yaw)
      ensures var p, q := old(ViewNow()).local.value, ViewNow().local.value;
              && StepsTo(Vec2(p.x, p.z), Vec2(q.x, q.z), flags, yaw, 1.28 / 64.0) && q.y == p.y && q.yaw == yaw
    {
      StepInCoordinates(Vec2(transforms[e].x, transforms[e].z), flags, CLIENT_STEP, yaw);
      var t := transforms[e].(yaw := yaw);
      LocalIsMoved(Now(), Predicted(ViewNow(), flags, yaw).local.value);
      var to := ApplyMoveFlags(Vec2(t.x, t.z), flags, PLAYER_SPEED_PER_SEC * CLIENT_DT_SEC, t.yaw);
      transforms := transforms[e := t.(x := to.x, z := to.z)];
    }

    /** The snapshot of every player, in whatever order the map of others iterates. */
    method Publish(e: EntityRef)
      requires Valid() && localPlayer == Some(e)
      modifies this`players
      ensures Shows(players, ViewNow())
    {
      var t := transforms[e];
      var snapshot := [PlayerRenderState(localCharacterId, t.x, t.y, t.z, true)];
      var todo := remotePlayers.Keys;
      while todo != {}
        invariant todo <= remotePlayers.Keys
        invariant |snapshot| + |todo| == 1 + |remotePlayers|
        invariant snapshot[0] == PlayerRenderState(localCharacterId, t.x, t.y, t.z, true)
        invariant forall k | 1 <= k < |snapshot| ::
                    && snapshot[k].characterId in remotePlayers
                    && snapshot[k].characterId !in todo && !snapshot[k].isLocal
                    && var p := transforms[remotePlayers[snapshot[k].characterId]];
                       snapshot[k].x == p.x && snapshot[k].y == p.y && snapshot[k].z == p.z
        invariant forall j, k | 1 <= j < k < |snapshot| :: snapshot[j].characterId != snapshot[k].characterId
        decreases |todo|
      {
        var id :| id in todo;
        todo := todo - {id};
        var remote := remotePlayers[id];
        if remote in valid {
          var other := transforms[remote];
          snapshot := snapshot + [PlayerRenderState(id, other.x, other.y, other.z, false)];
        }
      }
      assert ViewNow().remote.Keys == remotePlayers.Keys;
      assert |ViewNow().remote| == |remotePlayers|;
      players := snapshot;
    }

    /** The part of a turn after the drain: predict, publish, report. */
    method Act(keys: Keys, cameraYaw: Text)
      requires Valid() && |cameraYaw| == 4
      modifies this`transforms, this`players, network`written
      ensures Valid() && Acted(keys, cameraYaw)
    {
      if inWorld && localPlayer.Some? && localPlayer.value in valid {
        var e := localPlayer.value;
        var flags := FlagsOf(keys);
        PredictedInCoordinates(ViewNow(), keys, floats.angle(cameraYaw));
        Predict(e, flags, floats.angle(cameraYaw));
        Publish(e);
        network.SendPacket(HEADER_SIZE + 5, CMSG_PLAYER_MOVE, [flags] + cameraYaw);
      }
    }

    /** In the world: the view is the predicted one, it is what was published, and the keys and heading
        used were written if a socket is open.  Otherwise nothing happened. */
    twostate predicate Acted(keys: Keys, cameraYaw: Text)
      requires old(Valid()) && Valid() && |cameraYaw| == 4
      reads this, network
    {
      if old(inWorld) then
        && ViewNow() == Predicted(old(ViewNow()), FlagsOf(keys), floats.angle(cameraYaw))
        && PredictsStep(old(ViewNow()), ViewNow(), keys, floats.angle(cameraYaw))
        && Shows(players, ViewNow())
        && network.written == old(network.written) + Written(keys, cameraYaw)
      else ViewNow() == old(ViewNow()) && players == old(players) && network.written == old(network.written)
    }

    function Written(keys: Keys, cameraYaw: Text): Text
      requires |cameraYaw| == 4
      reads network`open
    {
      if network.open then Encode(MovePacket(FlagsOf(keys), cameraYaw)) else []
    }

    /** One turn of the thread's loop. */
    method RunTick(keys: Keys, cameraYaw: Text)
      requires Valid() && |cameraYaw| == 4
      modifies this, network.inbound, network`written
      ensures Valid() && network.inbound.queue == []
      ensures var v := Fold(old(ViewNow()), MessagesOf(old(network.inbound.queue), floats));
              if v.inWorld then
                && ViewNow() == Predicted(v, FlagsOf(keys), floats.angle(cameraYaw))
                && PredictsStep(v, ViewNow(), keys, floats.angle(cameraYaw))
                && Shows(players, ViewNow())
                && network.written == old(network.written) + Written(keys, cameraYaw)
              else ViewNow() == v && players == old(players) && network.written == old(network.written)
    {
      Drain();
      Act(keys, cameraYaw);
    }
  }

  // ----- what the thread's turns amount to -----

  /** Two views that differ at most in where the local player stands. */
  predicate SameButLocal(v: View, w: View) {
    v.(local := None) == w.(local := None) && (v.local.Some? <==> w.local.Some?)
  }

  /** Prediction never reaches the replica: whatever was predicted in between, the messages
      leave the same others and the same identity, and a STATE about the local player puts
      both views in the same place. */
  lemma {:induction false} PredictionStaysLocal(v: View, w: View, ms: seq<Message>)
    requires SameButLocal(v, w)
    ensures SameButLocal(Fold(v, ms), Fold(w, ms))
    ensures forall k | 0 <= k < |ms| && v.inWorld && ms[k].PlayerState? && ms[k].stateId == v.self && v.local.Some? &&
              (forall j | 0 <= j < |ms| :: !ms[j].AuthOk?) :: Fold(v, ms) == Fold(w, ms)
  {
    if ms != [] {
      var front := ms[..|ms| - 1];
      PredictionStaysLocal(v, w, front);
      if forall j | 0 <= j < |ms| :: !ms[j].AuthOk? {
        IdentityStays(v, front);
        assert forall k | 0 <= k < |front| :: front[k] == ms[k];
      }
    }
  }

  /** Without another AUTH_OK carrying an id, who is who does not change. */
  lemma {:induction false} IdentityStays(v: View, ms: seq<Message>)
    requires forall j | 0 <= j < |ms| :: !ms[j].AuthOk?
    ensures Fold(v, ms).self == v.self
    ensures v.inWorld ==> Fold(v, ms).inWorld
    ensures v.local.Some? ==> Fold(v, ms).local.Some?
  {
    if ms != [] {
      IdentityStays(v, ms[..|ms| - 1]);
    }
  }

  /** A snapshot shows exactly one local player, and no id twice exactly when the local
      character is not also tracked as somebody else. */
  lemma SnapshotIds(snapshot: seq<PlayerRenderState>, v: View)
    requires Shows(snapshot, v)
    ensures forall k | 0 <= k < |snapshot| :: snapshot[k].isLocal <==> k == 0
    ensures RepeatsNoId(snapshot) <==> v.self !in v.remote
    ensures forall id :: id in v.remote <==> exists k | 1 <= k < |snapshot| :: snapshot[k].characterId == id
  {
    ShownIds(snapshot, v, |snapshot|);
    SubsetOfSameSize(IdsBefore(snapshot, |snapshot|), v.remote.Keys);
    forall id
      ensures id in v.remote <==> exists k | 1 <= k < |snapshot| :: snapshot[k].characterId == id
    {
      InIdsBefore(snapshot, |snapshot|, id);
    }
  }

  /** On the stream: the snapshot of a client that has folded `ms` repeats an id exactly when the
      last message that settles its own identity is a STATE. */
  lemma SnapshotRepeatsExactly(snapshot: seq<PlayerRenderState>, v: View, ms: seq<Message>)
    requires Shows(snapshot, v) && SameButLocal(v, Fold(START, ms))
    ensures !RepeatsNoId(snapshot) <==>
            exists k | 0 <= k < |ms| :: LastRelevant(ms, k, SelfAt(ms, |ms|)) && ms[k].PlayerState?
  {
    SnapshotIds(snapshot, v);
    SelfIsRemoteExactly(ms);
  }

  function IdsBefore(snapshot: seq<PlayerRenderState>, n: nat): set<nat>
    requires n <= |snapshot|
  {
    if n <= 1 then {} else IdsBefore(snapshot, n - 1) + {snapshot[n - 1].characterId}
  }

  lemma {:induction false} InIdsBefore(snapshot: seq<PlayerRenderState>, n: nat, id: nat)
    requires n <= |snapshot|
    ensures id in IdsBefore(snapshot, n) <==> exists k | 1 <= k < n :: snapshot[k].characterId == id
  {
    if n > 1 {
      InIdsBefore(snapshot, n - 1, id);
      var last := snapshot[n - 1].characterId;
      assert id in IdsBefore(snapshot, n) <==> id == last || id in IdsBefore(snapshot, n - 1);
    }
  }

  lemma {:induction false} ShownIds(snapshot: seq<PlayerRenderState>, v: View, n: nat)
    requires Shows(snapshot, v) && 1 <= n <= |snapshot|
    ensures |IdsBefore(snapshot, n)| == n - 1 && IdsBefore(snapshot, n) <= v.remote.Keys
  {
    if n > 1 {
      ShownIds(snapshot, v, n - 1);
      InIdsBefore(snapshot, n - 1, snapshot[n - 1].characterId);
    }
  }

  lemma SubsetOfSameSize<T>(a: set<T>, b: set<T>)
    requires a <= b && |a| == |b|
    ensures a == b
  {
    if a != b {
      var x :| x in b && x !in a;
      assert a <= b - {x};
      FewerInSubset(a, b - {x});
    }
  }

  lemma {:induction false} FewerInSubset<T>(a: set<T>, b: set<T>)
    requires a <= b
    ensures |a| <= |b|
  {
    if a != {} {
      var x :| x in a;
      FewerInSubset(a - {x}, b - {x});
    }
  }
}
