/** How far players can get, and how far behind the saved positions can fall. */
module Persistence {
  import opened Protocol
  import opened Movement
  import opened Database
  import opened World
  import opened System
  import opened Ownership
  import opened Handoff
  import opened Identity
  import Replication

  /** A point of the world, whatever the heading. */
  datatype Spot = Spot(x: real, y: real, z: real)

  function SpotOf(p: Position): Spot {
    Spot(p.x, p.y, p.z)
  }

  function Kept(r: CharacterRow): Spot {
    Spot(r.x, r.y, r.z)
  }

  /** One tick with the given input. */
  function Advance(s: Spot, input: PlayerInput): Spot {
    var p := ApplyMoveFlags(Vec2(s.x, s.z), input.moveFlags, SERVER_STEP, input.yaw);
    Spot(p.x, s.y, p.z)
  }

  /** One tick per input. */
  function Path(s: Spot, inputs: seq<PlayerInput>): Spot {
    if inputs == [] then s else Advance(Path(s, inputs[..|inputs| - 1]), inputs[|inputs| - 1])
  }

  /** Some inputs lead from `a` to `b` in at most `k` ticks. */
  ghost predicate Reachable(a: Spot, b: Spot, k: int) {
    exists inputs: seq<PlayerInput> :: |inputs| <= k && Path(a, inputs) == b
  }

  /** At most `k` steps along both axes (a squared distance of at most twice the square of
      k * 1.28 * 0.05) and no change of height. */
  predicate Near(a: Spot, b: Spot, k: nat) {
    Within(Vec2(a.x, a.z), Vec2(b.x, b.z), k as real * (1.28 * 0.05)) && a.y == b.y
  }

  // ----- speed -----

  lemma NearWider(a: Spot, b: Spot, j: nat, k: nat)
    requires Near(a, b, j) && j <= k
    ensures Near(a, b, k)
  {
    WithinMonotone(Vec2(a.x, a.z), Vec2(b.x, b.z), j as real * SERVER_STEP, k as real * SERVER_STEP);
  }

  lemma {:induction false} PathIsNear(a: Spot, inputs: seq<PlayerInput>)
    ensures Near(a, Path(a, inputs), |inputs|)
  {
    if inputs != [] {
      var front, input := inputs[..|inputs| - 1], inputs[|inputs| - 1];
      PathIsNear(a, front);
      var b, c := Path(a, front), Path(a, inputs);
      StepLength(Vec2(b.x, b.z), input.moveFlags, SERVER_STEP, input.yaw);
      WithinTransitive(Vec2(a.x, a.z), Vec2(b.x, b.z), Vec2(c.x, c.z), |front| as real * SERVER_STEP, SERVER_STEP);
      assert |front| as real * SERVER_STEP + SERVER_STEP == |inputs| as real * SERVER_STEP;
    }
  }

  lemma ReachableIsNear(a: Spot, b: Spot, k: nat)
    requires Reachable(a, b, k)
    ensures Near(a, b, k)
  {
    var inputs: seq<PlayerInput> :| |inputs| <= k && Path(a, inputs) == b;
    PathIsNear(a, inputs);
    NearWider(a, b, |inputs|, k);
  }

  lemma ReachableFurther(a: Spot, e: Entity, k: int)
    requires Reachable(a, SpotOf(e.position), k)
    ensures Reachable(a, SpotOf(Moved(e).position), k + 1)
  {
    var inputs: seq<PlayerInput> :| |inputs| <= k && Path(a, inputs) == SpotOf(e.position);
    var longer := inputs + [e.input];
    assert longer[..|longer| - 1] == inputs;
    assert Path(a, longer) == SpotOf(Moved(e).position);
  }

  lemma ReachableItself(a: Spot, k: nat)
    ensures Reachable(a, a, k)
  {
    assert Path(a, []) == a;
  }

  /** What one step can do to an entity that is there before and after it. */
  ghost predicate Stays(x: State, x': State, e: EntityId) {
    && e in x.server.world && e in x'.server.world && x'.server.world[e].data == x.server.world[e].data
    && (if x'.server.ticks == x.server.ticks then x'.server.world[e].position == x.server.world[e].position
        else x'.server.ticks == x.server.ticks + 1 && x'.server.world[e] == Moved(x.server.world[e]))
  }

  lemma StepStays(x: State, ev: Event, e: EntityId)
    requires e < x.server.nextEntity && e in Step(x, ev).server.world
    ensures Stays(x, Step(x, ev), e)
  {
  }

  lemma NextEntityGrows(x: State, ev: Event)
    ensures x.server.nextEntity <= Step(x, ev).server.nextEntity
    ensures x.server.ticks <= Step(x, ev).server.ticks
  {
  }

  lemma {:induction false} RunGrows(x: State, run: seq<Event>)
    ensures x.server.nextEntity <= Exec(x, run).server.nextEntity
    ensures x.server.ticks <= Exec(x, run).server.ticks
  {
    if run != [] {
      RunGrows(x, run[..|run| - 1]);
      NextEntityGrows(Exec(x, run[..|run| - 1]), run[|run| - 1]);
    }
  }

  lemma StaysReachable(start: Spot, ticks: nat, x: State, x': State, e: EntityId)
    requires Stays(x, x', e) && Reachable(start, SpotOf(x.server.world[e].position), x.server.ticks - ticks)
    ensures Reachable(start, SpotOf(x'.server.world[e].position), x'.server.ticks - ticks)
  {
    if x'.server.ticks != x.server.ticks {
      ReachableFurther(start, x.server.world[e], x.server.ticks - ticks);
    }
  }

  /** Whatever packets arrive in whatever order, an entity moves only by ticks. */
  lemma {:induction false} OnlyTicksMove(x: State, run: seq<Event>, e: EntityId)
    requires e < x.server.nextEntity && e in x.server.world && e in Exec(x, run).server.world
    ensures Reachable(SpotOf(x.server.world[e].position), SpotOf(Exec(x, run).server.world[e].position),
                      Exec(x, run).server.ticks - x.server.ticks)
  {
    if run == [] {
      ReachableItself(SpotOf(x.server.world[e].position), 0);
    } else {
      var front, last := run[..|run| - 1], run[|run| - 1];
      RunGrows(x, front);
      StepStays(Exec(x, front), last, e);
      OnlyTicksMove(x, front, e);
      StaysReachable(SpotOf(x.server.world[e].position), x.server.ticks, Exec(x, front), Exec(x, run), e);
    }
  }

  /** From state `s` to state `s'`, `e` has kept within one step along both axes per tick. */
  predicate KeptNear(s: Server, s': Server, e: EntityId) {
    && e in s.world && e in s'.world && s.ticks <= s'.ticks
    && Near(SpotOf(s.world[e].position), SpotOf(s'.world[e].position), s'.ticks - s.ticks)
  }

  lemma NearIfReachable(s: Server, s': Server, e: EntityId)
    requires e in s.world && e in s'.world && s.ticks <= s'.ticks
    requires Reachable(SpotOf(s.world[e].position), SpotOf(s'.world[e].position), s'.ticks - s.ticks)
    ensures KeptNear(s, s', e)
  {
    ReachableIsNear(SpotOf(s.world[e].position), SpotOf(s'.world[e].position), s'.ticks - s.ticks);
  }

  lemma NearAfterRun(x: State, run: seq<Event>, e: EntityId)
    requires e < x.server.nextEntity && e in x.server.world && e in Exec(x, run).server.world
    ensures KeptNear(x.server, Exec(x, run).server, e)
  {
    RunGrows(x, run);
    OnlyTicksMove(x, run, e);
    NearIfReachable(x.server, Exec(x, run).server, e);
  }

  /** Speed bound over whole runs: after k ticks an entity is within k steps along both axes
      of where it was, and its height has not changed. */
  lemma SpeedIsBounded(x: State, run: seq<Event>, e: EntityId)
    requires Owned(x.server) && e in x.server.world && e in Exec(x, run).server.world
    ensures KeptNear(x.server, Exec(x, run).server, e)
  {
    EntitiesAreNumbered(x.server, e);
    NearAfterRun(x, run, e);
  }

  lemma EntitiesAreNumbered(s: Server, e: EntityId)
    requires Owned(s) && e in s.world
    ensures e < s.nextEntity
  {
  }

  // ----- lag -----

  /** The ticks an unsaved change can be old after `n` ticks. */
  function Lag(n: nat): nat {
    if n <= AUTOSAVE_INTERVAL_TICKS then n else (n - 1) % AUTOSAVE_INTERVAL_TICKS
  }

  lemma LagStep(n: nat)
    ensures Lag(n) <= AUTOSAVE_INTERVAL_TICKS
    ensures Lag(n + 1) == if IsAutosaveTick(n) then 0 else Lag(n) + 1
  {
  }

  /** The saved row is where `e` stands. */
  predicate SavedAt(t: Tables, c: nat, p: Position) {
    c in t.characters && Kept(t.characters[c]) == SpotOf(p)
  }

  /** Only rows of characters being saved change. */
  lemma {:induction false} SaveAllElsewhere(t: Tables, world: map<EntityId, Entity>, order: seq<EntityId>,
                                            failed: set<EntityId>, c: nat)
    requires forall e | e in order :: e in world && world[e].data.characterId != c
    requires c in t.characters
    ensures c in SaveAll(t, world, order, failed).characters &&
            SaveAll(t, world, order, failed).characters[c] == t.characters[c]
  {
    if order != [] {
      SaveAllElsewhere(t, world, order[..|order| - 1], failed, c);
    }
  }

  lemma {:induction false} SaveAllKeepsRows(t: Tables, world: map<EntityId, Entity>, order: seq<EntityId>,
                                            failed: set<EntityId>)
    requires forall e | e in order :: e in world
    ensures SaveAll(t, world, order, failed).characters.Keys == t.characters.Keys
  {
    if order != [] {
      SaveAllKeepsRows(t, world, order[..|order| - 1], failed);
    }
  }

  /** The saves of a pass leave each visited character's row where the last of its visited
      entities stands; with nobody sharing a character that is everybody's own position. */
  lemma {:induction false} SaveAllSaves(t: Tables, world: map<EntityId, Entity>, order: seq<EntityId>, k: nat)
    requires forall e | e in order :: e in world && world[e].data.characterId in t.characters
    requires k < |order|
    requires forall l | k < l < |order| :: SamePlace(world, order[k], order[l])
    ensures SavedAt(SaveAll(t, world, order, {}), world[order[k]].data.characterId, world[order[k]].position)
  {
    var rest := order[..|order| - 1];
    SaveAllKeepsRows(t, world, rest, {});
    if k < |rest| {
      SaveAllSaves(t, world, rest, k);
      assert SamePlace(world, order[k], order[|order| - 1]);
    }
  }

  /** Two entities share no character, or stand at the same point. */
  predicate SamePlace(world: map<EntityId, Entity>, d: EntityId, e: EntityId)
    requires d in world && e in world
  {
    world[d].data.characterId == world[e].data.characterId ==>
      var p, q := world[d].position, world[e].position;
      p.x == q.x && p.y == q.y && p.z == q.z
  }

  /** Exactly when an autosave without DB errors leaves nobody's saved position behind: when
      entities sharing a character (one account logged in twice) stand at the same point. */
  lemma AutosaveIsExactIff(t: Tables, world: map<EntityId, Entity>, order: seq<EntityId>)
    requires Enumerates(order, world)
    requires forall e | e in world :: world[e].data.characterId in t.characters
    ensures (forall e | e in world ::
               SavedAt(SaveAll(t, world, order, {}), world[e].data.characterId, world[e].position))
       <==> (forall d, e | d in world && e in world :: SamePlace(world, d, e))
  {
    var t' := SaveAll(t, world, order, {});
    if forall d, e | d in world && e in world :: SamePlace(world, d, e) {
      forall e | e in world
        ensures SavedAt(t', world[e].data.characterId, world[e].position)
      {
        assert e in order;
        var k :| 0 <= k < |order| && order[k] == e;
        SaveAllSaves(t, world, order, k);
      }
    }
  }

  // ----- what a tick writes -----

  /** The visit of `e` writes character `c`'s row. */
  predicate Writes(world: map<EntityId, Entity>, e: EntityId, failed: set<EntityId>, c: nat) {
    e in world && world[e].data.characterId == c && e !in failed
  }

  /** The visit is the last one that writes `c`'s row. */
  predicate WritesLast(world: map<EntityId, Entity>, order: seq<EntityId>, failed: set<EntityId>, c: nat, k: nat)
    requires k < |order|
  {
    Writes(world, order[k], failed, c) && forall l | k < l < |order| :: !Writes(world, order[l], failed, c)
  }

  /** A pass in which some saves may fail touches nothing but positions: a row is where the last entity
      of its character that was visited without failing stands, and as it was if there is none. */
  lemma {:induction false} PassWritesExactly(t: Tables, world: map<EntityId, Entity>, order: seq<EntityId>,
                                             failed: set<EntityId>)
    requires forall e | e in order :: e in world
    ensures var t' := SaveAll(t, world, order, failed);
            && t'.accounts == t.accounts && t'.sessions == t.sessions && t'.characters.Keys == t.characters.Keys
            && (forall c, k | c in t.characters && 0 <= k < |order| && WritesLast(world, order, failed, c, k) ::
                  var p := world[order[k]].position;
                  t'.characters[c] == t.characters[c].(x := p.x, y := p.y, z := p.z))
            && (forall c | c in t.characters && (forall e | e in order :: !Writes(world, e, failed, c)) ::
                  t'.characters[c] == t.characters[c])
  {
    if order != [] {
      var front, last := order[..|order| - 1], order[|order| - 1];
      PassWritesExactly(t, world, front, failed);
      var t1, t' := SaveAll(t, world, front, failed), SaveAll(t, world, order, failed);
      assert forall e | e in front :: e in order;
      forall c, k | c in t.characters && 0 <= k < |order| && WritesLast(world, order, failed, c, k)
        ensures var p := world[order[k]].position;
                t'.characters[c] == t.characters[c].(x := p.x, y := p.y, z := p.z)
      {
        if k == |front| {
          RowBefore(t, world, front, failed, c);
        } else {
          assert !Writes(world, order[|front|], failed, c);
          assert WritesLast(world, front, failed, c, k);
        }
      }
      forall c | c in t.characters && (forall e | e in order :: !Writes(world, e, failed, c))
        ensures t'.characters[c] == t.characters[c]
      {
        assert !Writes(world, last, failed, c);
      }
    }
  }

  /** Whatever a pass has done to a row so far, it is the same character's. */
  lemma {:induction false} RowBefore(t: Tables, world: map<EntityId, Entity>, order: seq<EntityId>,
                                     failed: set<EntityId>, c: nat)
    requires c in t.characters && forall e | e in order :: e in world
    ensures var t' := SaveAll(t, world, order, failed);
            && c in t'.characters && t'.characters[c].accountId == t.characters[c].accountId
            && t'.characters[c].name == t.characters[c].name
  {
    if order != [] {
      RowBefore(t, world, order[..|order| - 1], failed, c);
    }
  }

  /** What the tables are after a tick: as they were, but on ticks 600, 1200, ... each row is where the
      last entity of its character whose save worked stands after the tick's move. */
  lemma TickWritesExactly(x: State, ev: Event)
    requires ev.TickEvent? && Enabled(x, ev)
    ensures var t, x', n := x.tables, Step(x, ev), x.server.ticks;
            var world := x'.server.world;
            && (n == 0 || n % 600 != 0 ==> x'.tables == t)
            && (n > 0 && n % 600 == 0 ==>
                  && x'.tables.accounts == t.accounts && x'.tables.sessions == t.sessions
                  && x'.tables.characters.Keys == t.characters.Keys
                  && (forall c, k |
                        c in t.characters && 0 <= k < |ev.order| && WritesLast(world, ev.order, ev.failed, c, k) ::
                        var p := world[ev.order[k]].position;
                        x'.tables.characters[c] == t.characters[c].(x := p.x, y := p.y, z := p.z))
                  && (forall c | c in t.characters && (forall e | e in ev.order :: !Writes(world, e, ev.failed, c)) ::
                        x'.tables.characters[c] == t.characters[c]))
  {
    PassWritesExactly(x.tables, Simulate(x.server.world), ev.order, ev.failed);
  }

  // ----- how old a saved row can be -----

  /** An event in which no save fails. */
  predicate Reliable(ev: Event) {
    (ev.TickEvent? ==> ev.failed == {}) && (ev.DestroyEntity? ==> !ev.saveFails)
  }

  /** Some entity of `e`'s character stands where the character's row says. */
  ghost predicate SavedBySomebody(t: Tables, world: map<EntityId, Entity>, e: EntityId)
    requires e in world
  {
    exists d :: d in world && world[d].data.characterId == world[e].data.characterId &&
      SavedAt(t, world[e].data.characterId, world[d].position)
  }

  /** After a pass every visited character's row is where one of its visited entities stands. */
  lemma {:induction false} SaveAllSavesSomebody(t: Tables, world: map<EntityId, Entity>, order: seq<EntityId>, k: nat)
    requires forall e | e in order :: e in world && world[e].data.characterId in t.characters
    requires k < |order|
    ensures SavedBySomebody(SaveAll(t, world, order, {}), world, order[k])
  {
    var rest, last := order[..|order| - 1], order[|order| - 1];
    SaveAllKeepsRows(t, world, rest, {});
    if world[last].data.characterId == world[order[k]].data.characterId {
      assert SavedAt(SaveAll(t, world, order, {}), world[order[k]].data.characterId, world[last].position);
    } else {
      SaveAllSavesSomebody(t, world, rest, k);
      var d :| d in world && world[d].data.characterId == world[order[k]].data.characterId &&
        SavedAt(SaveAll(t, world, rest, {}), world[order[k]].data.characterId, world[d].position);
      assert SavedAt(SaveAll(t, world, order, {}), world[order[k]].data.characterId, world[d].position);
    }
  }

  lemma PassSavesSomebody(t: Tables, world: map<EntityId, Entity>, order: seq<EntityId>)
    requires Enumerates(order, world)
    requires forall e | e in world :: world[e].data.characterId in t.characters
    ensures forall e | e in world :: SavedBySomebody(SaveAll(t, world, order, {}), world, e)
  {
    forall e | e in world
      ensures SavedBySomebody(SaveAll(t, world, order, {}), world, e)
    {
      assert e in order;
      var k :| 0 <= k < |order| && order[k] == e;
      SaveAllSavesSomebody(t, world, order, k);
    }
  }

  lemma SimulateKeepsData(world: map<EntityId, Entity>)
    ensures Simulate(world).Keys == world.Keys
    ensures forall e | e in world :: Simulate(world)[e].data == world[e].data
  {
  }

  /** In state `x'`, `e`'s row and its clock are as they were in `x`. */
  ghost predicate RowKept(x: State, x': State, e: EntityId) {
    && e in x.server.world && e in x'.server.world
    && x'.server.world[e].data == x.server.world[e].data
    && var c := x.server.world[e].data.characterId;
       c in x.tables.characters && c in x'.tables.characters &&
         Kept(x'.tables.characters[c]) == Kept(x.tables.characters[c])
  }

  /** What one step does for the row of an entity that is there afterwards: the row stays, or is
      where an entity of the character stands after the step, or stood before it. */
  ghost predicate RowFollows(x: State, x': State, e: EntityId) {
    || (RowKept(x, x', e) && x'.server.ticks - x.server.ticks <= Lag(x'.server.ticks) - Lag(x.server.ticks))
    || (e in x'.server.world && SavedBySomebody(x'.tables, x'.server.world, e))
    || (e in x.server.world && e in x'.server.world && x'.server.ticks == x.server.ticks &&
        x'.server.world[e].data == x.server.world[e].data && SavedBySomebody(x'.tables, x.server.world, e))
  }

  lemma TickFollows(x: State, ev: Event, e: EntityId)
    requires Identified(x) && ev.TickEvent? && Reliable(ev) && Enabled(x, ev) && e in x.server.world
    ensures RowFollows(x, Step(x, ev), e)
  {
    var x', world := Step(x, ev), Simulate(x.server.world);
    assert PlaysStored(x.tables, x.server.world[e].data);
    LagStep(x.server.ticks);
    SimulateKeepsData(x.server.world);
    if IsAutosaveTick(x.server.ticks) {
      assert forall d | d in world :: PlaysStored(x.tables, world[d].data);
      PassSavesSomebody(x.tables, world, ev.order);
      assert SavedBySomebody(x'.tables, x'.server.world, e);
    } else {
      assert RowKept(x, x', e);
    }
  }

  lemma DestroyFollows(x: State, k: nat, e: EntityId)
    requires Identified(x) && k < |x.server.pending| && e in Destroys(x, k, false).server.world
    ensures RowFollows(x, Destroys(x, k, false), e)
  {
    var x', d := Destroys(x, k, false), x.server.pending[k];
    assert e in x.server.world && PlaysStored(x.tables, x.server.world[e].data);
    if d in x.server.world && x.server.world[d].data.characterId == x.server.world[e].data.characterId {
      assert SavedAt(x'.tables, x.server.world[e].data.characterId, x.server.world[d].position);
    } else {
      assert RowKept(x, x', e);
    }
  }

  lemma AdmissionFollows(x: State, ev: Event, e: EntityId)
    requires Identified(x) && ev.Receive? && Enabled(x, ev) && AdmissionOf(x, ev).Admitted?
    requires e in Receives(x, ev).server.world
    ensures RowFollows(x, Receives(x, ev), e)
  {
    var x', a := Receives(x, ev), AdmissionOf(x, ev);
    AdmissionEffect(x.tables, ev.request.token, Env(x, ev));
    assert x'.server.world == Enter(x.server, ev.session, a).world && x'.tables == a.tables;
    if e == x.server.nextEntity {
      assert SavedAt(x'.tables, x'.server.world[e].data.characterId, x'.server.world[e].position);
    } else {
      assert PlaysStored(x.tables, x.server.world[e].data);
      assert RowKept(x, x', e);
    }
  }

  lemma OtherPacketsFollow(x: State, ev: Event, e: EntityId)
    requires Identified(x) && ev.Receive? && Enabled(x, ev) && AdmissionOf(x, ev).Refused?
    requires e in Receives(x, ev).server.world
    ensures RowFollows(x, Receives(x, ev), e)
  {
    assert e in x.server.world && PlaysStored(x.tables, x.server.world[e].data);
    assert RowKept(x, Receives(x, ev), e);
  }

  lemma RestFollows(x: State, ev: Event, e: EntityId)
    requires Identified(x) && e in Step(x, ev).server.world
    requires !Enabled(x, ev) || !(ev.TickEvent? || ev.DestroyEntity? || ev.Receive?)
    ensures RowFollows(x, Step(x, ev), e)
  {
    assert e in x.server.world && PlaysStored(x.tables, x.server.world[e].data);
    assert RowKept(x, Step(x, ev), e);
  }

  lemma StepFollows(x: State, ev: Event, e: EntityId)
    requires Identified(x) && Reliable(ev) && e in Step(x, ev).server.world
    ensures RowFollows(x, Step(x, ev), e)
  {
    if !Enabled(x, ev) {
      RestFollows(x, ev, e);
    } else {
      match ev
      case TickEvent(_, _) => TickFollows(x, ev, e);
      case DestroyEntity(k, _) => DestroyFollows(x, k, e);
      case Receive(_, _, _, _) =>
        if AdmissionOf(x, ev).Admitted? {
          AdmissionFollows(x, ev, e);
        } else {
          OtherPacketsFollow(x, ev, e);
        }
      case _ => RestFollows(x, ev, e);
    }
  }

  /** After the first `n` events of `run` both `d` and `e` were in the world, playing one
      character, and `d` stood where that character's row is at the end of the run; since then
      no more ticks have passed than since the last autosave. */
  ghost predicate LastSaved(x: State, run: seq<Event>, n: nat, d: EntityId, e: EntityId) {
    n <= |run| &&
    var z, y := Exec(x, run[..n]), Exec(x, run);
    && d in z.server.world && e in z.server.world && e in y.server.world
    && z.server.world[e].data == y.server.world[e].data
    && z.server.world[d].data.characterId == y.server.world[e].data.characterId
    && SavedAt(y.tables, y.server.world[e].data.characterId, z.server.world[d].position)
    && y.server.ticks - z.server.ticks <= Lag(y.server.ticks)
  }

  ghost predicate WasSaved(x: State, run: seq<Event>, e: EntityId) {
    exists n: nat, d: EntityId :: LastSaved(x, run, n, d, e)
  }

  lemma StillSaved(x: State, run: seq<Event>, ev: Event, e: EntityId)
    requires WasSaved(x, run, e)
    requires var y, y' := Exec(x, run), Exec(x, run + [ev]);
             RowKept(y, y', e) && y'.server.ticks - y.server.ticks <= Lag(y'.server.ticks) - Lag(y.server.ticks)
    ensures WasSaved(x, run + [ev], e)
  {
    var n: nat, d: EntityId :| LastSaved(x, run, n, d, e);
    assert (run + [ev])[..n] == run[..n];
    assert LastSaved(x, run + [ev], n, d, e);
  }

  lemma NowSaved(x: State, run: seq<Event>, ev: Event, e: EntityId)
    requires e in Exec(x, run + [ev]).server.world && RowFollows(Exec(x, run), Exec(x, run + [ev]), e)
    requires e in Exec(x, run).server.world ==> WasSaved(x, run, e)
    ensures WasSaved(x, run + [ev], e)
  {
    var whole := run + [ev];
    var y, y' := Exec(x, run), Exec(x, whole);
    var c := y'.server.world[e].data.characterId;
    assert whole[..|run|] == run && whole[..|whole|] == whole;
    if SavedBySomebody(y'.tables, y'.server.world, e) {
      var d :| d in y'.server.world && y'.server.world[d].data.characterId == c &&
        SavedAt(y'.tables, c, y'.server.world[d].position);
      LagStep(y'.server.ticks);
      assert LastSaved(x, whole, |whole|, d, e);
    } else if RowKept(y, y', e) && y'.server.ticks - y.server.ticks <= Lag(y'.server.ticks) - Lag(y.server.ticks) {
      StillSaved(x, run, ev, e);
    } else {
      var d :| d in y.server.world && y.server.world[d].data.characterId == c &&
        SavedAt(y'.tables, c, y.server.world[d].position);
      assert LastSaved(x, whole, |run|, d, e);
    }
  }

  /** In every run without save errors, a player's row is where some entity of that character
      stood, beside the player's own, when no more ticks had still to pass than `Lag` (at most
      600) counts. */
  lemma {:induction false} SavedRowIsRecent(x: State, run: seq<Event>, e: EntityId)
    requires Initial(x) && (forall ev | ev in run :: Reliable(ev)) && e in Exec(x, run).server.world
    ensures WasSaved(x, run, e)
    ensures Lag(Exec(x, run).server.ticks) <= 600
  {
    LagStep(Exec(x, run).server.ticks);
    if run != [] {
      var front, ev := run[..|run| - 1], run[|run| - 1];
      assert run == front + [ev];
      assert forall other | other in front :: other in run;
      RunKeepsIdentified(x, front);
      StepFollows(Exec(x, front), ev, e);
      if e in Exec(x, front).server.world {
        SavedRowIsRecent(x, front, e);
      }
      NowSaved(x, front, ev, e);
    }
  }

  /** Nobody else plays `e`'s character while `e` is in the world. */
  ghost predicate NeverShared(x: State, run: seq<Event>, e: EntityId) {
    forall n, d |
      0 <= n <= |run| && d != e && d in Exec(x, run[..n]).server.world && e in Exec(x, run[..n]).server.world ::
      Exec(x, run[..n]).server.world[d].data.characterId != Exec(x, run[..n]).server.world[e].data.characterId
  }

  lemma ExecSplits(x: State, run: seq<Event>, n: nat)
    requires n <= |run|
    ensures Exec(x, run) == Exec(Exec(x, run[..n]), run[n..])
  {
    ExecConcat(x, run[..n], run[n..]);
    assert run[..n] + run[n..] == run;
  }

  lemma NearBetween(x: State, run: seq<Event>, n: nat, e: EntityId)
    requires Owned(x.server) && n <= |run|
    requires e in Exec(x, run[..n]).server.world && e in Exec(x, run).server.world
    ensures KeptNear(Exec(x, run[..n]).server, Exec(x, run).server, e)
  {
    ExecSplits(x, run, n);
    RunKeepsOwned(x, run[..n]);
    SpeedIsBounded(Exec(x, run[..n]), run[n..], e);
  }

  /** The saved row is at most `Lag` ticks of movement from where `e` stands. */
  ghost predicate LagsWithin(y: State, e: EntityId) {
    && e in y.server.world && y.server.world[e].data.characterId in y.tables.characters
    && Near(Kept(y.tables.characters[y.server.world[e].data.characterId]), SpotOf(y.server.world[e].position),
            Lag(y.server.ticks))
  }

  lemma NearSinceSaved(z: Server, y: State, e: EntityId)
    requires KeptNear(z, y.server, e) && y.server.ticks - z.ticks <= Lag(y.server.ticks)
    requires SavedAt(y.tables, y.server.world[e].data.characterId, z.world[e].position)
    ensures LagsWithin(y, e)
  {
    NearWider(SpotOf(z.world[e].position), SpotOf(y.server.world[e].position), y.server.ticks - z.ticks,
      Lag(y.server.ticks));
  }

  /** Bounded persistence lag: in a run without save errors, the saved position of a player whose
      character is never shared is never more than 600 ticks of movement from where it stands. */
  lemma PersistenceLagIsBounded(x: State, run: seq<Event>, e: EntityId)
    requires Initial(x) && (forall ev | ev in run :: Reliable(ev)) && e in Exec(x, run).server.world
    requires NeverShared(x, run, e)
    ensures LagsWithin(Exec(x, run), e) && Lag(Exec(x, run).server.ticks) <= 600
  {
    SavedRowIsRecent(x, run, e);
    var n: nat, d: EntityId :| LastSaved(x, run, n, d, e);
    assert d == e;
    NearBetween(x, run, n, e);
    NearSinceSaved(Exec(x, run[..n]).server, Exec(x, run), e);
  }

  /** Any autosave without errors, after any run at all: every saved row is where some entity of
      its character stands now, and everybody's row is exact if and only if entities sharing a
      character stand at the same point; so it is when no two entities share one. */
  lemma AutosaveClosesTheGap(x: State, run: seq<Event>, ev: Event)
    requires Initial(x) && Reliable(ev) && ev.TickEvent? && Enabled(Exec(x, run), ev)
    requires var n := Exec(x, run).server.ticks; n > 0 && n % 600 == 0
    ensures var y := Exec(x, run + [ev]);
            && (forall e | e in y.server.world :: SavedBySomebody(y.tables, y.server.world, e))
            && ((forall e | e in y.server.world ::
                   SavedAt(y.tables, y.server.world[e].data.characterId, y.server.world[e].position))
                <==> (forall d, e | d in y.server.world && e in y.server.world :: SamePlace(y.server.world, d, e)))
    ensures var y := Exec(x, run + [ev]);
            Replication.UniqueCharacters(y.server.world) ==>
              forall e | e in y.server.world ::
                SavedAt(y.tables, y.server.world[e].data.characterId, y.server.world[e].position)
  {
    ExecSnoc(x, run, ev);
    RunKeepsIdentified(x, run);
    var z := Exec(x, run);
    var world := Simulate(z.server.world);
    SimulateKeepsData(z.server.world);
    assert forall e | e in world :: PlaysStored(z.tables, world[e].data);
    PassSavesSomebody(z.tables, world, ev.order);
    AutosaveIsExactIff(z.tables, world, ev.order);
  }

  // ----- leaving and coming back -----

  predicate SameRow(t: Tables, t': Tables, c: nat) {
    c in t.characters && c in t'.characters && t'.characters[c] == t.characters[c]
  }

  lemma TickElsewhere(t: Tables, world: map<EntityId, Entity>, order: seq<EntityId>, failed: set<EntityId>, c: nat)
    requires c in t.characters && c !in Replication.Characters(world) && forall e | e in order :: e in world
    ensures SameRow(t, SaveAll(t, Simulate(world), order, failed), c)
  {
    forall e | e in order
      ensures Simulate(world)[e].data.characterId != c
    {
      assert world[e].data.characterId in Replication.Characters(world);
    }
    SaveAllElsewhere(t, Simulate(world), order, failed, c);
  }

  lemma DestroyElsewhere(s: Server, t: Tables, k: nat, failed: bool, c: nat)
    requires c in t.characters && c !in Replication.Characters(s.world) && k < |s.pending|
    ensures SameRow(t, RunDestroy(s, t, k, failed).1, c)
  {
    if s.pending[k] in s.world {
      assert s.world[s.pending[k]].data.characterId in Replication.Characters(s.world);
    }
  }

  /** Without an entity of character `c` in the world nothing writes `c`'s row. */
  lemma RowUntouched(x: State, ev: Event, c: nat)
    requires c in x.tables.characters && c !in Replication.Characters(x.server.world)
    ensures SameRow(x.tables, Step(x, ev).tables, c)
  {
    if Enabled(x, ev) {
      match ev
      case TickEvent(order, failed) => TickElsewhere(x.tables, x.server.world, order, failed, c);
      case DestroyEntity(k, saveFails) => DestroyElsewhere(x.server, x.tables, k, saveFails, c);
      case Receive(_, _, _, _) =>
        if AdmissionOf(x, ev).Admitted? {
          AdmissionEffect(x.tables, ev.request.token, Env(x, ev));
        }
      case _ =>
    }
  }

  ghost predicate AwayThroughout(x: State, run: seq<Event>, c: nat) {
    forall n | 0 <= n <= |run| :: c !in Replication.Characters(Exec(x, run[..n]).server.world)
  }

  lemma {:induction false} RowUntouchedWhileAway(x: State, run: seq<Event>, c: nat)
    requires c in x.tables.characters && AwayThroughout(x, run, c)
    ensures SameRow(x.tables, Exec(x, run).tables, c)
  {
    if run != [] {
      var front := run[..|run| - 1];
      forall n | 0 <= n <= |front|
        ensures c !in Replication.Characters(Exec(x, front[..n]).server.world)
      {
        assert front[..n] == run[..n];
      }
      assert run[..|front|] == front;
      RowUntouchedWhileAway(x, front, c);
      RowUntouched(Exec(x, front), run[|run| - 1], c);
    }
  }

  lemma SavePutsRow(t: Tables, e: Entity)
    requires CharactersConsistent(t) && UsernamesUnique(t) && e.data.characterId in t.characters
    ensures CharactersConsistent(Save(t, e)) && UsernamesUnique(Save(t, e))
    ensures SavedAt(Save(t, e), e.data.characterId, e.position)
    ensures Save(t, e).characters[e.data.characterId].accountId == t.characters[e.data.characterId].accountId
  {
  }

  lemma DestroySaves(x: State, k: nat)
    requires Owned(x.server) && TablesGood(x) && k < |x.server.pending|
    requires x.server.world[x.server.pending[k]].data.characterId in x.tables.characters
    ensures var d, x' := x.server.world[x.server.pending[k]], Destroys(x, k, false);
            && Owned(x'.server) && TablesGood(x') && SavedAt(x'.tables, d.data.characterId, d.position)
            && x'.tables.characters[d.data.characterId].accountId == x.tables.characters[d.data.characterId].accountId
  {
    DestroyKeepsOwned(x.server, x.tables, k, false);
    SavePutsRow(x.tables, x.server.world[x.server.pending[k]]);
  }

  /** A posted destruction takes the entity out of the world whether or not its save works; a save that
      fails leaves the tables as they were, one that works writes the character's position. */
  lemma DestructionSaves(x: State, k: nat, failed: bool)
    requires Owned(x.server) && Identified(x) && k < |x.server.pending|
    ensures var e, x' := x.server.pending[k], Destroys(x, k, failed);
            && e in x.server.world && e !in x'.server.world
            && var c, p := x.server.world[e].data.characterId, x.server.world[e].position;
            && c in x.tables.characters && (failed ==> x'.tables == x.tables)
            && (!failed ==> x'.tables == x.tables.(characters :=
                  x.tables.characters[c := x.tables.characters[c].(x := p.x, y := p.y, z := p.z)]))
  {
    var e := x.server.pending[k];
    assert e in x.server.pending;
    assert PlaysStored(x.tables, x.server.world[e].data);
  }

  /** While `c` is away its row stays put, and its account's next admission loads that row. */
  lemma ReturnLoadsRow(x: State, run: seq<Event>, c: nat, token: Text, env: AuthEnv)
    requires Owned(x.server) && TablesGood(x) && c in x.tables.characters && AwayThroughout(x, run, c)
    requires Admit(Exec(x, run).tables, token, env).Admitted?
    requires Admit(Exec(x, run).tables, token, env).accountId == x.tables.characters[c].accountId
    ensures var a, row := Admit(Exec(x, run).tables, token, env), x.tables.characters[c];
            a.characterId == c && (a.x, a.y, a.z) == (row.x, row.y, row.z)
  {
    RowUntouchedWhileAway(x, run, c);
    RunKeepsTables(x, run);
    var t := Exec(x, run).tables;
    assert CharactersConsistent(t) && t.characters[c] == x.tables.characters[c];
    AdmissionEffect(t, token, env);
  }

  /** Disconnect and return: when the last entity of a character has been destroyed (and its
      save went through), the next admission of the account restores exactly its x, y and z,
      whatever happened to others in between. */
  lemma ReturnRestoresPosition(x: State, k: nat, run: seq<Event>, token: Text, env: AuthEnv)
    requires Owned(x.server) && TablesGood(x) && k < |x.server.pending|
    requires var c := x.server.world[x.server.pending[k]].data.characterId;
             && c in x.tables.characters && AwayThroughout(Destroys(x, k, false), run, c)
             && var a := Admit(Exec(Destroys(x, k, false), run).tables, token, env);
             a.Admitted? && a.accountId == x.tables.characters[c].accountId
    ensures var d := x.server.world[x.server.pending[k]];
            var a := Admit(Exec(Destroys(x, k, false), run).tables, token, env);
            a.characterId == d.data.characterId && (a.x, a.y, a.z) == (d.position.x, d.position.y, d.position.z)
  {
    DestroySaves(x, k);
    ReturnLoadsRow(Destroys(x, k, false), run, x.server.world[x.server.pending[k]].data.characterId, token, env);
  }
}
