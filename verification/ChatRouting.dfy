/** Who hears what. */
module ChatRouting {
  import opened Protocol
  import opened Movement
  import opened World
  import opened Ownership
  import opened Replication

  /** The rule of each channel between two players, by what they can see of each other. */
  predicate Addressed(channel: Channel, speaker: Entity, listener: Entity, target: Text) {
    var dx, dz := listener.position.x - speaker.position.x, listener.position.z - speaker.position.z;
    match channel
    case Whisper => listener.data.name == target
    case Say => dx * dx + dz * dz <= 225.0
    case Yell => dx * dx + dz * dz <= 3600.0
    case _ => false
  }

  /** The pruned session list is exactly the live players, in their old order, each once. */
  ghost predicate ExactlyThePlayers(s: Server, registry: seq<SessionId>) {
    && NoDuplicates(registry)
    && (forall j: SessionId :: j in registry <==> Playing(s, j))
    && (forall j: SessionId, k: SessionId :: Precedes(registry, j, k) <==>
          Precedes(s.registry, j, k) && Playing(s, j) && Playing(s, k))
  }

  lemma PruningIsExact(s: Server)
    requires Owned(s)
    ensures ExactlyThePlayers(s, Prune(s.registry, s.sessions))
  {
    PruneKeepsOrder(s.registry, s.sessions);
    forall j: SessionId, k: SessionId | Precedes(s.registry, j, k)
      ensures Alive(s.sessions, j) <==> Playing(s, j)
      ensures Alive(s.sessions, k) <==> Playing(s, k)
    {
      assert j in s.registry && k in s.registry;
    }
  }

  lemma EarshotIsDistance(channel: Channel, speaker: Entity, listener: Entity, target: Text)
    ensures var p, q := speaker.position, listener.position;
            var d := DistSq(Vec2(p.x, p.z), Vec2(q.x, q.z));
            && (channel.Say? ==> (Addressed(channel, speaker, listener, target) <==> d <= RangeSquared(channel)))
            && (channel.Yell? ==> (Addressed(channel, speaker, listener, target) <==> d <= RangeSquared(channel)))
  {
    var dx, dz := listener.position.x - speaker.position.x, listener.position.z - speaker.position.z;
    var p, q := speaker.position, listener.position;
    assert DistSq(Vec2(p.x, p.z), Vec2(q.x, q.z)) == dx * dx + dz * dz;
    if channel.Say? {
      assert RangeSquared(channel) == 225.0;
      assert Addressed(channel, speaker, listener, target) <==> dx * dx + dz * dz <= 225.0;
    } else if channel.Yell? {
      assert RangeSquared(channel) == 3600.0;
      assert Addressed(channel, speaker, listener, target) <==> dx * dx + dz * dz <= 3600.0;
    }
  }

  lemma HearersAreAddressed(s: Server, i: SessionId, channel: Channel, target: Text, j: SessionId)
    requires Owned(s) && InWorld(s, i) && j < |s.sessions|
    ensures var speaker := EntityOf(s, i);
            j in Hearers(s, channel, speaker.position.x, speaker.position.z, target) <==>
              Playing(s, j) && InWorld(s, j) && Addressed(channel, speaker, EntityOf(s, j), target)
  {
    assert j in Listening(s) <==> Playing(s, j);
    if InWorld(s, j) {
      EarshotIsDistance(channel, EntityOf(s, i), EntityOf(s, j), target);
    }
  }

  /** One message: every player the channel addresses gets exactly one copy carrying the
      speaker's own name, nobody else gets anything, the session list keeps exactly its live
      members in their order, and the world does not change.  Guild and unknown channels do
      nothing at all. */
  lemma DeliveryIsExact(s: Server, i: SessionId, channel: Channel, target: Text, text: Text)
    requires Owned(s) && Playing(s, i) && InWorld(s, i)
    ensures var s' := HandleChat(s, i, channel, target, text);
            var speaker := EntityOf(s, i);
            && |s'.sessions| == |s.sessions| && s'.world == s.world
            && (forall j | 0 <= j < |s.sessions| ::
                  s'.sessions[j] ==
                    if Playing(s, j) && InWorld(s, j) && Addressed(channel, speaker, EntityOf(s, j), target)
                    then s.sessions[j].(sent := s.sessions[j].sent + [Chat(channel, speaker.data.name, text)])
                    else s.sessions[j])
            && (if channel.Guild? || channel.OtherChannel? then s' == s else ExactlyThePlayers(s, s'.registry))
  {
    PruningIsExact(s);
    forall j | 0 <= j < |s.sessions|
      ensures var p := EntityOf(s, i).position;
              j in Hearers(s, channel, p.x, p.z, target) <==>
                Playing(s, j) && InWorld(s, j) && Addressed(channel, EntityOf(s, i), EntityOf(s, j), target)
    {
      HearersAreAddressed(s, i, channel, target, j);
    }
  }

  /** A Say reaches nobody a Yell from the same spot would not. */
  lemma SayIsWithinYell(s: Server, x: real, z: real, target: Text)
    ensures Hearers(s, Say, x, z, target) <= Hearers(s, Yell, x, z, target)
  {
    assert SAY_RANGE * SAY_RANGE <= YELL_RANGE * YELL_RANGE;
  }

  /** The speaker always hears its own Say. */
  lemma SpeakerHearsItself(s: Server, i: SessionId)
    requires Owned(s) && Playing(s, i)
    ensures InWorld(s, i)
    ensures i in Hearers(s, Say, EntityOf(s, i).position.x, EntityOf(s, i).position.z, [])
  {
    assert Owns(s, i, s.sessions[i].entityId);
    var p := EntityOf(s, i).position;
    assert DistSq(Vec2(p.x, p.z), Vec2(p.x, p.z)) == 0.0;
    assert SAY_RANGE * SAY_RANGE >= 0.0;
  }

  /** If one player is in earshot of another, the other is in earshot of the one. */
  lemma HearingIsSymmetric(s: Server, i: SessionId, j: SessionId, channel: Channel)
    requires Owned(s) && Playing(s, i) && Playing(s, j) && InWorld(s, i) && InWorld(s, j)
    requires channel == Say || channel == Yell
    ensures var p, q := EntityOf(s, i).position, EntityOf(s, j).position;
            j in Hearers(s, channel, p.x, p.z, []) <==> i in Hearers(s, channel, q.x, q.z, [])
  {
    var p, q := EntityOf(s, i).position, EntityOf(s, j).position;
    var dx, dz := q.x - p.x, q.z - p.z;
    assert DistSq(Vec2(p.x, p.z), Vec2(q.x, q.z)) == dx * dx + dz * dz;
    assert (-dx) * (-dx) == dx * dx && (-dz) * (-dz) == dz * dz;
    assert DistSq(Vec2(q.x, q.z), Vec2(p.x, p.z)) == (-dx) * (-dx) + (-dz) * (-dz);
  }
}
