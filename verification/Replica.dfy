/** The client's picture of the world as a fold over the messages it receives. */
module Replica {
  import opened Protocol

  /** `self` is the local character id (0 until an AUTH_OK names it), `local` the local
      player's transform once spawned, `remote` the tracked players' transforms. */
  datatype View = View(inWorld: bool, self: nat, local: Option<Position>, remote: map<nat, Position>)

  const ORIGIN := Position(0.0, 0.0, 0.0, ZERO_ANGLE)
  const START := View(false, 0, None, map[])

  function Handle(v: View, m: Message): View {
    match m
    case AuthOk(id) => v.(inWorld := true, self := id, local := Some(ORIGIN))
    case AuthOkTruncated => v.(inWorld := true, local := Some(ORIGIN))
    case PlayerState(id, p) =>
      if !v.inWorld then v
      else if id == v.self then (if v.local.Some? then v.(local := Some(p)) else v)
      else v.(remote := v.remote[id := p])
    case PlayerLeave(id) => v.(remote := v.remote - {id})
    case _ => v
  }

  function Fold(v: View, ms: seq<Message>): View {
    if ms == [] then v else Handle(Fold(v, ms[..|ms| - 1]), ms[|ms| - 1])
  }

  lemma {:induction false} FoldConcat(v: View, a: seq<Message>, b: seq<Message>)
    ensures Fold(v, a + b) == Fold(Fold(v, a), b)
  {
    if b == [] {
      assert a + b == a;
    } else {
      var front := b[..|b| - 1];
      FoldConcat(v, a, front);
      assert (a + b)[..|a + b| - 1] == a + front;
    }
  }

  lemma FoldOne(v: View, a: seq<Message>, m: Message)
    ensures Fold(v, a + [m]) == Handle(Fold(v, a), m)
  {
    assert (a + [m])[..|a|] == a;
  }

  // ----- the declarative reading of a packet sequence -----

  /** The identity in force just before message `k`: the last AUTH_OK that carried one. */
  function SelfAt(ms: seq<Message>, k: nat): nat
    requires k <= |ms|
  {
    if k == 0 then 0 else if ms[k - 1].AuthOk? then ms[k - 1].characterId else SelfAt(ms, k - 1)
  }

  /** Some AUTH_OK arrived before message `k`. */
  predicate EnteredBefore(ms: seq<Message>, k: nat)
    requires k <= |ms|
  {
    exists j | 0 <= j < k :: ms[j].AuthOk? || ms[j].AuthOkTruncated?
  }

  /** Message `k` is a STATE the client takes for another player `id`. */
  predicate TracksAt(ms: seq<Message>, k: nat, id: nat)
    requires k < |ms|
  {
    ms[k].PlayerState? && ms[k].stateId == id && EnteredBefore(ms, k) && id != SelfAt(ms, k)
  }

  /** Message `k` settles what is shown for player `id`. */
  predicate Relevant(ms: seq<Message>, k: nat, id: nat)
    requires k < |ms|
  {
    TracksAt(ms, k, id) || (ms[k].PlayerLeave? && ms[k].leaveId == id)
  }

  /** Message `k` is the last one that settles player `id`. */
  predicate LastRelevant(ms: seq<Message>, k: nat, id: nat)
    requires k < |ms|
  {
    Relevant(ms, k, id) && forall j | k < j < |ms| :: !Relevant(ms, j, id)
  }

  lemma {:induction false} PrefixReadsAlike(ms: seq<Message>, m: Message, k: nat)
    requires k <= |ms|
    ensures SelfAt(ms + [m], k) == SelfAt(ms, k)
    ensures EnteredBefore(ms + [m], k) == EnteredBefore(ms, k)
  {
    if k > 0 {
      PrefixReadsAlike(ms, m, k - 1);
    }
    assert forall j | 0 <= j < k :: (ms + [m])[j] == ms[j];
  }

  lemma PrefixRelevantAlike(ms: seq<Message>, m: Message, id: nat)
    ensures forall k | 0 <= k < |ms| :: TracksAt(ms + [m], k, id) == TracksAt(ms, k, id)
    ensures forall k | 0 <= k < |ms| :: Relevant(ms + [m], k, id) == Relevant(ms, k, id)
  {
    forall k | 0 <= k < |ms|
      ensures TracksAt(ms + [m], k, id) == TracksAt(ms, k, id)
    {
      PrefixReadsAlike(ms, m, k);
    }
  }

  /** The client is in the world exactly after an AUTH_OK, under the last identity it was
      given, and from then on it has a local player. */
  lemma {:induction false} FoldIdentity(ms: seq<Message>)
    ensures var v := Fold(START, ms);
            && v.self == SelfAt(ms, |ms|)
            && v.inWorld == EnteredBefore(ms, |ms|)
            && (v.local.Some? <==> v.inWorld)
  {
    if ms != [] {
      var front, m := ms[..|ms| - 1], ms[|ms| - 1];
      assert ms == front + [m];
      FoldIdentity(front);
      PrefixReadsAlike(front, m, |front|);
    }
  }

  /** The replica equals its declarative reading, for every message sequence: player `id` is
      shown exactly when the last message that settles it is a STATE, and then with that
      STATE's values. */
  lemma {:induction false} FoldMeaning(ms: seq<Message>, id: nat)
    ensures id in Fold(START, ms).remote <==>
            exists k | 0 <= k < |ms| :: LastRelevant(ms, k, id) && ms[k].PlayerState?
    ensures forall k | 0 <= k < |ms| && LastRelevant(ms, k, id) && ms[k].PlayerState? ::
              id in Fold(START, ms).remote && Fold(START, ms).remote[id] == ms[k].position
  {
    if ms != [] {
      var front, m, n := ms[..|ms| - 1], ms[|ms| - 1], |ms| - 1;
      assert ms == front + [m];
      FoldMeaning(front, id);
      FoldIdentity(front);
      PrefixRelevantAlike(front, m, id);
      PrefixReadsAlike(front, m, n);
      if Relevant(ms, n, id) {
        assert LastRelevant(ms, n, id);
      } else {
        assert forall k | 0 <= k < n :: LastRelevant(ms, k, id) <==> LastRelevant(front, k, id);
      }
    }
  }

  /** Message `k` puts the local player somewhere: an AUTH_OK, or a STATE under the identity then in
      force. */
  predicate PlacesLocal(ms: seq<Message>, k: nat)
    requires k < |ms|
  {
    || ms[k].AuthOk? || ms[k].AuthOkTruncated?
    || (ms[k].PlayerState? && EnteredBefore(ms, k) && ms[k].stateId == SelfAt(ms, k))
  }

  predicate LastPlacesLocal(ms: seq<Message>, k: nat)
    requires k < |ms|
  {
    PlacesLocal(ms, k) && forall j | k < j < |ms| :: !PlacesLocal(ms, j)
  }

  /** The local player likewise: it is where the last message that placed it says, which for an AUTH_OK
      is the origin, facing yaw zero; and there is one exactly if some message did. */
  lemma {:induction false} LocalMeaning(ms: seq<Message>)
    ensures Fold(START, ms).local.Some? <==> exists k | 0 <= k < |ms| :: PlacesLocal(ms, k)
    ensures forall k | 0 <= k < |ms| && LastPlacesLocal(ms, k) ::
              Fold(START, ms).local ==
              Some(if ms[k].PlayerState? then ms[k].position else Position(0.0, 0.0, 0.0, SinCos(0.0, 1.0)))
  {
    if ms != [] {
      var front, m, n := ms[..|ms| - 1], ms[|ms| - 1], |ms| - 1;
      assert ms == front + [m];
      LocalMeaning(front);
      FoldIdentity(front);
      PrefixReadsAlike(front, m, n);
      forall k | 0 <= k < n
        ensures PlacesLocal(ms, k) <==> PlacesLocal(front, k)
      {
        PrefixReadsAlike(front, m, k);
      }
      assert PlacesLocal(ms, n) || forall k | 0 <= k < n :: LastPlacesLocal(ms, k) <==> LastPlacesLocal(front, k);
    }
  }

  // ----- what is published to the renderer -----

  predicate HasOneAuthOk(ms: seq<Message>) {
    exists k | 0 <= k < |ms| :: ms[k].AuthOk? &&
      forall j | 0 <= j < |ms| && j != k :: !ms[j].AuthOk? && !ms[j].AuthOkTruncated?
  }

  /** With a single AUTH_OK the local character is never tracked as somebody else. */
  lemma SelfIsNeverRemote(ms: seq<Message>)
    requires HasOneAuthOk(ms)
    ensures Fold(START, ms).self !in Fold(START, ms).remote
  {
    var self := Fold(START, ms).self;
    FoldIdentity(ms);
    FoldMeaning(ms, self);
    if self in Fold(START, ms).remote {
      var k :| 0 <= k < |ms| && LastRelevant(ms, k, self) && ms[k].PlayerState?;
      SelfSettles(ms, k);
      assert false;
    }
  }

  /** Exactly when the local character is tracked as somebody else: the last message that settles
      the identity now in force is a STATE, which then came while another identity was. */
  lemma SelfIsRemoteExactly(ms: seq<Message>)
    ensures Fold(START, ms).self in Fold(START, ms).remote <==>
            exists k | 0 <= k < |ms| :: LastRelevant(ms, k, SelfAt(ms, |ms|)) && ms[k].PlayerState?
    ensures forall k | 0 <= k < |ms| && LastRelevant(ms, k, SelfAt(ms, |ms|)) && ms[k].PlayerState? ::
              SelfAt(ms, k) != SelfAt(ms, |ms|)
  {
    FoldIdentity(ms);
    FoldMeaning(ms, Fold(START, ms).self);
  }

  /** Once the only AUTH_OK has arrived, the identity does not change any more. */
  lemma {:induction false} SelfSettles(ms: seq<Message>, k: nat)
    requires k <= |ms| && HasOneAuthOk(ms) && EnteredBefore(ms, k)
    ensures SelfAt(ms, k) == SelfAt(ms, |ms|)
    decreases |ms| - k
  {
    if k < |ms| {
      SelfSettles(ms, k + 1);
    }
  }

  /** A second AUTH_OK under another id breaks that: the old id may already be tracked. */
  lemma SelfCanBeRemoteAfterTwoAuthOks()
    ensures exists ms :: Fold(START, ms).self in Fold(START, ms).remote
  {
    var ms := [AuthOk(1), PlayerState(2, ORIGIN), AuthOk(2)];
    var v1 := Fold(START, ms[..1]);
    assert v1.inWorld && v1.self == 1 by { assert ms[..1] == [] + [AuthOk(1)]; FoldOne(START, [], AuthOk(1)); }
    var v2 := Fold(START, ms[..2]);
    assert v2 == Handle(v1, ms[1]) by { assert ms[..2] == ms[..1] + [ms[1]]; FoldOne(START, ms[..1], ms[1]); }
    assert Fold(START, ms) == Handle(v2, ms[2]) by { assert ms == ms[..2] + [ms[2]]; FoldOne(START, ms[..2], ms[2]); }
    assert 2 in Fold(START, ms).remote;
  }
}
