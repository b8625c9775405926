/** One account logged in twice.  Nothing prevents it, and the character's row then follows only
    one of the two players: a run on which an autosave misses the other, and runs on which that
    one gets as far from its saved position as one likes. */
module Duplicates {
  import opened Protocol
  import opened Movement
  import opened Token
  import opened Database
  import opened World
  import opened System
  import opened Persistence
  import opened Identity
  import Ownership
  import Replication

  const FIRST_TOKEN := PrintToken(0, 0)
  const SECOND_TOKEN := PrintToken(0, 1)
  const ACCOUNT := 1
  const ORIGIN := Spot(0.0, 0.0, 0.0)
  const STANDING_ENTITY :=
    Entity(PlayerData([], CHARACTER), Position(0.0, 0.0, 0.0, ZERO_ANGLE), PlayerInput(0, ZERO_ANGLE))
  const CHARACTER := 7

  const BEGIN := State(EMPTY, Tables(map[ACCOUNT := Account([], [])], map[], map[]), 0, [], [])

  // Two logins of the same account, two connections, two entries, and one MOVE by the first.
  const FIRST_CHECK := LoginCheck([], true, false)
  const FIRST_ISSUE := LoginIssue(0, FIRST_TOKEN, false)
  const SECOND_ISSUE := LoginIssue(1, SECOND_TOKEN, false)
  const FIRST_ENTRY := Receive(0, GameAuth(FIRST_TOKEN), CHARACTER, NoFault)
  const SECOND_ENTRY := Receive(1, GameAuth(SECOND_TOKEN), CHARACTER + 1, NoFault)
  const FIRST_MOVE := Receive(0, Move(UP, ZERO_ANGLE), 0, NoFault)
  const VISIT_BOTH := TickEvent([0, 1], {})

  function Prelude(): seq<Event> {
    [FIRST_CHECK, FIRST_ISSUE] + [FIRST_CHECK, SECOND_ISSUE] + [Connect, Connect] + [FIRST_ENTRY, SECOND_ENTRY] +
      [FIRST_MOVE]
  }

  function TicksOf(n: nat): seq<Event> {
    seq(n, _ => VISIT_BOTH)
  }

  /** The run: everything up to the MOVE, then `n` ticks. */
  function DuplicateRun(n: nat): seq<Event> {
    Prelude() + TicksOf(n)
  }

  // ----- up to the MOVE -----

  lemma TwoTokens()
    ensures FIRST_TOKEN != SECOND_TOKEN
  {
    if FIRST_TOKEN == SECOND_TOKEN {
      TokensDiffer(0, 0, 0, 1);
    }
  }

  lemma AccountFound(t: Tables)
    requires t.accounts == map[ACCOUNT := Account([], [])]
    ensures LeastKey(AccountsNamed(t, [])) == Some(ACCOUNT)
  {
    assert ACCOUNT in AccountsNamed(t, []);
  }

  /** Both tokens are stored. */
  ghost predicate BothStored(x: State) {
    && x.server == EMPTY && x.clock == 0
    && x.tables.accounts == BEGIN.tables.accounts && x.tables.characters == map[]
    && FIRST_TOKEN in x.tables.sessions && SECOND_TOKEN in x.tables.sessions
    && x.tables.sessions[FIRST_TOKEN] == SessionRow(ACCOUNT, TOKEN_TTL)
    && x.tables.sessions[SECOND_TOKEN] == SessionRow(ACCOUNT, TOKEN_TTL)
  }

  lemma LoginsStoreBoth()
    ensures BothStored(Step(Step(Step(Step(BEGIN, FIRST_CHECK), FIRST_ISSUE), FIRST_CHECK), SECOND_ISSUE))
  {
    TwoTokens();
    AccountFound(BEGIN.tables);
    var x2 := Step(Step(BEGIN, FIRST_CHECK), FIRST_ISSUE);
    assert x2.tables == BEGIN.tables.(sessions := map[FIRST_TOKEN := SessionRow(ACCOUNT, TOKEN_TTL)]);
    AccountFound(x2.tables);
  }

  /** The two entities of the character stand at the origin, as its row says. */
  ghost predicate Standing(x: State) {
    && x.server.world.Keys == {0, 1}
    && x.server.world[0] == STANDING_ENTITY && x.server.world[1] == STANDING_ENTITY
    && CHARACTER in x.tables.characters && Kept(x.tables.characters[CHARACTER]) == ORIGIN
    && |x.server.sessions| == 2 && x.server.ticks == 0
    && x.server.sessions[0] == Session(Authenticated, true, 0, true, true, [AuthOk(CHARACTER)])
  }

  /** The first entry creates the character. */
  ghost predicate OneIn(x: State) {
    && |x.server.sessions| == 2 && x.server.nextEntity == 1 && x.server.ticks == 0 && x.clock == 0
    && x.server.sessions[0] == Session(Authenticated, true, 0, true, true, [AuthOk(CHARACTER)])
    && x.server.sessions[1] == NEW_SESSION
    && x.server.world == map[0 := STANDING_ENTITY]
    && x.tables.accounts == BEGIN.tables.accounts
    && x.tables.characters == map[CHARACTER := CharacterRow(ACCOUNT, [], 0.0, 0.0, 0.0)]
    && SECOND_TOKEN in x.tables.sessions && x.tables.sessions[SECOND_TOKEN] == SessionRow(ACCOUNT, TOKEN_TTL)
  }

  lemma FirstEnters(x: State)
    requires BothStored(x)
    ensures var x' := Step(Step(Step(x, Connect), Connect), FIRST_ENTRY);
            OneIn(x')
  {
    var y := Step(Step(x, Connect), Connect);
    assert y.tables == x.tables && y.server == EMPTY.(sessions := [NEW_SESSION, NEW_SESSION]) && y.clock == 0;
    TwoTokens();
    var t := x.tables.(sessions := x.tables.sessions - {FIRST_TOKEN});
    assert CharactersOf(t, ACCOUNT) == {};
    assert !NameTaken(t, []);
    assert Admit(y.tables, FIRST_TOKEN, AuthEnv(0, CHARACTER, NoFault)) ==
           Admitted(ACCOUNT, [], CHARACTER, 0.0, 0.0, 0.0,
                    t.(characters := map[CHARACTER := CharacterRow(ACCOUNT, [], 0.0, 0.0, 0.0)]));
  }

  /** The second finds it. */
  lemma SecondEnters(x: State)
    requires OneIn(x)
    ensures Standing(Step(x, SECOND_ENTRY))
  {
    var t := x.tables.(sessions := x.tables.sessions - {SECOND_TOKEN});
    assert CharactersOf(t, ACCOUNT) == {CHARACTER};
    assert Admit(x.tables, SECOND_TOKEN, AuthEnv(0, CHARACTER + 1, NoFault)) ==
           Admitted(ACCOUNT, [], CHARACTER, 0.0, 0.0, 0.0, t);
  }

  lemma MoveIsHeld(x: State)
    requires Standing(x)
    ensures Walked(Step(x, FIRST_MOVE), 0)
  {
  }

  lemma PreludeEntersBoth()
    ensures Walked(Exec(BEGIN, Prelude()), 0)
  {
    var logins := [FIRST_CHECK, FIRST_ISSUE] + [FIRST_CHECK, SECOND_ISSUE];
    var x2 := Exec(BEGIN, [FIRST_CHECK, FIRST_ISSUE]);
    ExecTwo(BEGIN, FIRST_CHECK, FIRST_ISSUE);
    ExecTwo(x2, FIRST_CHECK, SECOND_ISSUE);
    ExecConcat(BEGIN, [FIRST_CHECK, FIRST_ISSUE], [FIRST_CHECK, SECOND_ISSUE]);
    LoginsStoreBoth();
    var x4 := Exec(BEGIN, logins);
    ExecTwo(x4, Connect, Connect);
    ExecConcat(BEGIN, logins, [Connect, Connect]);
    var x6 := Exec(BEGIN, logins + [Connect, Connect]);
    ExecTwo(x6, FIRST_ENTRY, SECOND_ENTRY);
    ExecConcat(BEGIN, logins + [Connect, Connect], [FIRST_ENTRY, SECOND_ENTRY]);
    FirstEnters(x4);
    SecondEnters(Step(x6, FIRST_ENTRY));
    ExecSnoc(BEGIN, logins + [Connect, Connect] + [FIRST_ENTRY, SECOND_ENTRY], FIRST_MOVE);
    MoveIsHeld(Exec(BEGIN, logins + [Connect, Connect] + [FIRST_ENTRY, SECOND_ENTRY]));
  }

  // ----- the ticks -----

  /** `e` has walked `n` steps north from `from`, `d` stands at `at`, and the row of their character
      is `row` or where `d` stands. */
  ghost predicate Parting(x: State, e: EntityId, d: EntityId, from: Spot, at: Spot, row: Spot, n: nat) {
    && Walking(x.server.world, e, d, SpotAfter(from, n), at)
    && RowIn(x.tables, x.server.world[d].data.characterId, row, at)
  }

  /** `e`, at `spot`, walks north and `d`, of the same character, stands at `at`. */
  predicate Walking(world: map<EntityId, Entity>, e: EntityId, d: EntityId, spot: Spot, at: Spot) {
    && e in world && d in world && world[e].data.characterId == world[d].data.characterId
    && world[e].input == PlayerInput(UP, ZERO_ANGLE) && SpotOf(world[e].position) == spot
    && world[d].input == PlayerInput(0, ZERO_ANGLE) && SpotOf(world[d].position) == at
  }

  predicate RowIn(t: Tables, c: nat, row: Spot, at: Spot) {
    c in t.characters && (Kept(t.characters[c]) == row || Kept(t.characters[c]) == at)
  }

  function SpotAfter(from: Spot, n: nat): Spot {
    Spot(from.x, from.y, from.z + n as real * SERVER_STEP)
  }

  lemma OneStepNorth(e: Entity)
    requires e.input == PlayerInput(UP, ZERO_ANGLE)
    ensures Moved(e).position == Position(e.position.x, e.position.y, e.position.z + SERVER_STEP, ZERO_ANGLE)
  {
    assert Axis(UP, UP, DOWN) == 1.0 && Axis(UP, RIGHT, LEFT) == 0.0;
    assert Direction(UP, ZERO_ANGLE) == Vec2(0.0, 1.0);
  }

  lemma NoStep(e: Entity)
    requires e.input == PlayerInput(0, ZERO_ANGLE)
    ensures Moved(e).position == Position(e.position.x, e.position.y, e.position.z, ZERO_ANGLE)
  {
    assert Axis(0, UP, DOWN) == 0.0 && Axis(0, RIGHT, LEFT) == 0.0;
    assert Direction(0, ZERO_ANGLE) == Vec2(0.0, 0.0);
  }

  lemma WalkOneMore(world: map<EntityId, Entity>, e: EntityId, d: EntityId, from: Spot, at: Spot, n: nat)
    requires Walking(world, e, d, SpotAfter(from, n), at)
    ensures Walking(Simulate(world), e, d, SpotAfter(from, n + 1), at)
  {
    OneStepNorth(world[e]);
    NoStep(world[d]);
    assert (n + 1) as real * SERVER_STEP == n as real * SERVER_STEP + SERVER_STEP;
  }

  /** Of the saves of one character the last stays. */
  lemma LastSaveStays(t: Tables, world: map<EntityId, Entity>, order: seq<EntityId>)
    requires order != [] && forall e | e in order :: e in world
    requires world[order[|order| - 1]].data.characterId in t.characters
    ensures var d, t' := world[order[|order| - 1]], SaveAll(t, world, order, {});
            d.data.characterId in t'.characters && Kept(t'.characters[d.data.characterId]) == SpotOf(d.position)
  {
    SaveAllKeepsRows(t, world, order[..|order| - 1], {});
  }

  /** A tick in which every save works. */
  lemma TickChanges(x: State, order: seq<EntityId>)
    requires Enumerates(order, x.server.world)
    ensures Enabled(x, TickEvent(order, {}))
    ensures var x', world := Step(x, TickEvent(order, {})), Simulate(x.server.world);
            && x'.server.world == world && x'.server.ticks == x.server.ticks + 1
            && x'.tables == if IsAutosaveTick(x.server.ticks) then SaveAll(x.tables, world, order, {}) else x.tables
  {
  }

  lemma TickParts(x: State, order: seq<EntityId>, e: EntityId, d: EntityId, from: Spot, at: Spot, row: Spot, n: nat)
    requires Parting(x, e, d, from, at, row, n)
    requires Enumerates(order, x.server.world) && order[|order| - 1] == d
    ensures var x' := Step(x, TickEvent(order, {}));
            && Parting(x', e, d, from, at, row, n + 1)
            && x'.server.world.Keys == x.server.world.Keys && x'.server.ticks == x.server.ticks + 1
  {
    TickChanges(x, order);
    WalkOneMore(x.server.world, e, d, from, at, n);
    LastSaveStays(x.tables, Simulate(x.server.world), order);
  }

  lemma BothEnumerated(x: State)
    requires x.server.world.Keys == {0, 1}
    ensures Enumerates([0, 1], x.server.world)
  {
    var order: seq<EntityId> := [0, 1];
    assert forall e: EntityId :: e in order <==> e == 0 || e == 1;
  }

  /** One of the two has walked `n` steps north and the row is where both entered. */
  ghost predicate Walked(x: State, n: nat) {
    Parting(x, 0, 1, ORIGIN, ORIGIN, ORIGIN, n) && x.server.ticks == n && x.server.world.Keys == {0, 1}
  }

  lemma TickWalks(x: State, n: nat)
    requires Walked(x, n)
    ensures Walked(Step(x, VISIT_BOTH), n + 1) && Enabled(x, VISIT_BOTH)
  {
    BothEnumerated(x);
    TickChanges(x, [0, 1]);
    TickParts(x, [0, 1], 0, 1, ORIGIN, ORIGIN, ORIGIN, n);
  }

  lemma {:induction false} Repeated(x: State, ev: Event, n: nat, inv: (State, int) -> bool)
    requires inv(x, 0) && forall y: State, k: nat | inv(y, k) :: inv(Step(y, ev), k + 1)
    ensures inv(Exec(x, seq(n, _ => ev)), n)
  {
    if n > 0 {
      Repeated(x, ev, n - 1, inv);
      assert seq(n, _ => ev) == seq(n - 1, _ => ev) + [ev];
      ExecSnoc(x, seq(n - 1, _ => ev), ev);
    }
  }

  /** After `n` ticks one of the two has walked `n` steps and the row has not followed. */
  lemma RunWalks(n: nat)
    ensures Walked(Exec(BEGIN, DuplicateRun(n)), n)
  {
    var y := Exec(BEGIN, Prelude());
    PreludeEntersBoth();
    forall z: State, k: nat | Walked(z, k)
      ensures Walked(Step(z, VISIT_BOTH), k + 1)
    {
      TickWalks(z, k);
    }
    Repeated(y, VISIT_BOTH, n, (z: State, k: int) => k >= 0 && Walked(z, k));
    assert TicksOf(n) == seq(n, _ => VISIT_BOTH);
    ExecConcat(BEGIN, Prelude(), TicksOf(n));
  }

  lemma BeginsWell(n: nat)
    ensures Initial(BEGIN) && forall ev | ev in DuplicateRun(n) :: Reliable(ev)
  {
  }

  // ----- results -----

  /** After `run`, without any failure so far, the tick `ev` saves, and leaves `e`'s saved position
      behind. */
  ghost predicate AutosaveMisses(x: State, run: seq<Event>, ev: Event, e: EntityId) {
    && Initial(x) && (forall other | other in run :: Reliable(other))
    && ev.TickEvent? && Reliable(ev) && Enabled(Exec(x, run), ev) && IsAutosaveTick(Exec(x, run).server.ticks)
    && LeftBehind(Exec(x, run + [ev]), e)
  }

  ghost predicate LeftBehind(y: State, e: EntityId) {
    && e in y.server.world
    && !SavedAt(y.tables, y.server.world[e].data.characterId, y.server.world[e].position)
  }

  lemma WalkerIsBehind(y: State, n: nat)
    requires n > 0 && Walked(y, n)
    ensures LeftBehind(y, 0)
  {
    assert n as real * SERVER_STEP > 0.0;
  }

  lemma OneMoreTick(n: nat)
    ensures DuplicateRun(n) + [VISIT_BOTH] == DuplicateRun(n + 1)
  {
    assert TicksOf(n) + [VISIT_BOTH] == TicksOf(n + 1);
  }

  /** A run without any failure after which an autosave tick leaves a player's saved position
      behind: two logins of one account, two entries, one MOVE, and ticks. */
  lemma AutosaveCanMissADuplicate()
    ensures AutosaveMisses(BEGIN, DuplicateRun(600), VISIT_BOTH, 0)
  {
    BeginsWell(600);
    RunWalks(600);
    TickWalks(Exec(BEGIN, DuplicateRun(600)), 600);
    OneMoreTick(600);
    RunWalks(601);
    WalkerIsBehind(Exec(BEGIN, DuplicateRun(601)), 601);
  }

  /** The square of (2k + 1) steps is more than twice the square of k steps. */
  lemma TooFar(k: nat)
    ensures var q, r := (2 * k + 1) as real * SERVER_STEP, k as real * SERVER_STEP;
            q > 0.0 && q * q > 2.0 * (r * r)
  {
    var s, r, q := SERVER_STEP, k as real, (2 * k + 1) as real;
    assert q == 2.0 * r + 1.0;
    assert q * q == 4.0 * (r * r) + 4.0 * r + 1.0;
    assert r * r >= 0.0 && s * s > 0.0;
    var excess := q * q - 2.0 * (r * r);
    assert excess > 0.0;
    assert excess * (s * s) > 0.0;
    assert (q * s) * (q * s) - 2.0 * ((r * s) * (r * s)) == excess * (s * s);
  }

  lemma FartherThan(a: Spot, b: Spot, k: nat)
    requires b.z - a.z >= (2 * k + 1) as real * SERVER_STEP
    ensures !Near(a, b, k)
  {
    TooFar(k);
    var q, dx, dz := (2 * k + 1) as real * SERVER_STEP, b.x - a.x, b.z - a.z;
    assert dz * dz >= q * q by {
      assert (dz - q) * (dz + q) >= 0.0;
      assert (dz - q) * (dz + q) == dz * dz - q * q;
    }
    assert dx * dx >= 0.0;
    assert DistSq(Vec2(a.x, a.z), Vec2(b.x, b.z)) >= dz * dz by {
      assert (a.x - b.x) * (a.x - b.x) == dx * dx && (a.z - b.z) * (a.z - b.z) == dz * dz;
    }
  }

  /** `e` is in the world, more than `k` ticks of movement from its saved position. */
  ghost predicate BehindBy(y: State, e: EntityId, k: nat) {
    && e in y.server.world
    && var c := y.server.world[e].data.characterId;
       c in y.tables.characters && !Near(Kept(y.tables.characters[c]), SpotOf(y.server.world[e].position), k)
  }

  lemma WalkerIsBehindBy(y: State, k: nat)
    requires Walked(y, 2 * k + 1)
    ensures BehindBy(y, 0, k)
  {
    FartherThan(ORIGIN, SpotAfter(ORIGIN, 2 * k + 1), k);
  }

  /** The lag of a shared character has no bound at all: for every distance there is a run without
      any failure after which a player stands farther than that from its saved position. */
  lemma DuplicateLagIsUnbounded(k: nat)
    ensures Initial(BEGIN) && forall ev | ev in DuplicateRun(2 * k + 1) :: Reliable(ev)
    ensures BehindBy(Exec(BEGIN, DuplicateRun(2 * k + 1)), 0, k)
  {
    BeginsWell(2 * k + 1);
    RunWalks(2 * k + 1);
    WalkerIsBehindBy(Exec(BEGIN, DuplicateRun(2 * k + 1)), k);
  }

  // ----- from any reachable state -----

  /** Two players whose connections are up play the same character. */
  ghost predicate Sharing(s: Server, i: SessionId, j: SessionId) {
    && i != j && Replication.Playing(s, i) && Replication.Playing(s, j)
    && s.sessions[i].open && s.sessions[j].open
    && InWorld(s, i) && InWorld(s, j) && Replication.Plays(s, i) == Replication.Plays(s, j)
  }

  /** A view that visits everybody and `d` last. */
  lemma {:induction false} VisitedLast(world: map<EntityId, Entity>, d: EntityId) returns (order: seq<EntityId>)
    requires d in world
    ensures Enumerates(order, world) && order[|order| - 1] == d
    decreases |world|
  {
    if e :| e in world && e != d {
      var rest := VisitedLast(world - {e}, d);
      order := [e] + rest;
    } else {
      order := [d];
    }
  }

  lemma StepsBeyond(far: real) returns (n: nat)
    ensures n as real * SERVER_STEP >= far
  {
    n := if far <= 0.0 then 0 else (far / SERVER_STEP).Floor + 1;
    if far > 0.0 {
      assert n as real > far / SERVER_STEP;
      assert far / SERVER_STEP * SERVER_STEP == far;
    }
  }

  /** A MOVE of a player. */
  lemma MoveRecords(x: State, i: SessionId, flags: byte)
    requires Replication.Playing(x.server, i) && x.server.sessions[i].open && InWorld(x.server, i)
    ensures var x', e := Step(x, Receive(i, Move(flags, ZERO_ANGLE), 0, NoFault)), x.server.sessions[i].entityId;
            var moved := x.server.world[e].(input := PlayerInput(flags, ZERO_ANGLE));
            x'.server == x.server.(world := x.server.world[e := moved]) && x'.tables == x.tables
  {
  }

  /** The first of the two sets off to the north, the other stops. */
  function SetOff(i: SessionId, j: SessionId): seq<Event> {
    [Receive(i, Move(UP, ZERO_ANGLE), 0, NoFault), Receive(j, Move(0, ZERO_ANGLE), 0, NoFault)]
  }

  lemma SettingOff(x: State, i: SessionId, j: SessionId)
    requires Ownership.Owned(x.server) && Identified(x) && Sharing(x.server, i, j)
    ensures var e, d := x.server.sessions[i].entityId, x.server.sessions[j].entityId;
            var from, at := SpotOf(x.server.world[e].position), SpotOf(x.server.world[d].position);
            var c := x.server.world[d].data.characterId;
            && c in x.tables.characters
            && Parting(Exec(x, SetOff(i, j)), e, d, from, at, Kept(x.tables.characters[c]), 0)
  {
    var e, d := x.server.sessions[i].entityId, x.server.sessions[j].entityId;
    assert e != d;
    assert PlaysStored(x.tables, x.server.world[d].data);
    ExecTwo(x, SetOff(i, j)[0], SetOff(i, j)[1]);
    MoveRecords(x, i, UP);
    MoveRecords(Step(x, SetOff(i, j)[0]), j, 0);
  }

  lemma TicksPart(x: State, order: seq<EntityId>, e: EntityId, d: EntityId, from: Spot, at: Spot, row: Spot, n: nat)
    requires Parting(x, e, d, from, at, row, 0)
    requires Enumerates(order, x.server.world) && order[|order| - 1] == d
    ensures Parting(Exec(x, seq(n, _ => TickEvent(order, {}))), e, d, from, at, row, n)
  {
    var inv := (z: State, k: int) => k >= 0 && Parting(z, e, d, from, at, row, k) && Enumerates(order, z.server.world);
    forall z: State, k: nat | inv(z, k)
      ensures inv(Step(z, TickEvent(order, {})), k + 1)
    {
      TickParts(z, order, e, d, from, at, row, k);
    }
    Repeated(x, TickEvent(order, {}), n, inv);
  }

  /** The run `more` has no failures and leaves `e` farther than `k` ticks of movement from its saved
      position. */
  ghost predicate LeavesBehind(x: State, more: seq<Event>, e: EntityId, k: nat) {
    (forall ev | ev in more :: Reliable(ev)) && BehindBy(Exec(x, more), e, k)
  }

  lemma PartingIsBehind(y: State, e: EntityId, d: EntityId, from: Spot, at: Spot, row: Spot, n: nat, k: nat)
    requires Parting(y, e, d, from, at, row, n)
    requires from.z + n as real * SERVER_STEP - row.z >= (2 * k + 1) as real * SERVER_STEP
    requires from.z + n as real * SERVER_STEP - at.z >= (2 * k + 1) as real * SERVER_STEP
    ensures BehindBy(y, e, k)
  {
    FartherThan(row, SpotAfter(from, n), k);
    FartherThan(at, SpotAfter(from, n), k);
  }

  /** From any state in which two players share a character there is, for every distance, a run
      without failures that takes the first farther than that from its saved position. */
  lemma SharedLagGrows(x: State, i: SessionId, j: SessionId, k: nat)
    requires Ownership.Owned(x.server) && Identified(x) && Sharing(x.server, i, j)
    ensures exists more :: LeavesBehind(x, more, x.server.sessions[i].entityId, k)
  {
    var e, d := x.server.sessions[i].entityId, x.server.sessions[j].entityId;
    var from, at := SpotOf(x.server.world[e].position), SpotOf(x.server.world[d].position);
    SettingOff(x, i, j);
    var row := Kept(x.tables.characters[x.server.world[d].data.characterId]);
    var y := Exec(x, SetOff(i, j));
    var order := VisitedLast(y.server.world, d);
    var north := if row.z >= at.z then row.z else at.z;
    var n := StepsBeyond(north - from.z + (2 * k + 1) as real * SERVER_STEP);
    TicksPart(y, order, e, d, from, at, row, n);
    var ticks := seq(n, _ => TickEvent(order, {}));
    ExecConcat(x, SetOff(i, j), ticks);
    PartingIsBehind(Exec(y, ticks), e, d, from, at, row, n, k);
    assert LeavesBehind(x, SetOff(i, j) + ticks, e, k);
  }

  /** Sharing a character is all it takes.  In every reachable state in which two players whose
      connections are up play one character, either can be led as far from its saved position as one
      likes, without any failure. */
  lemma DuplicateLagAlwaysGrows(x: State, run: seq<Event>, i: SessionId, j: SessionId, k: nat)
    requires Initial(x) && Sharing(Exec(x, run).server, i, j)
    ensures exists more :: LeavesBehind(Exec(x, run), more, Exec(x, run).server.sessions[i].entityId, k)
    ensures exists more :: LeavesBehind(Exec(x, run), more, Exec(x, run).server.sessions[j].entityId, k)
  {
    Ownership.RunKeepsOwned(x, run);
    RunKeepsIdentified(x, run);
    SharedLagGrows(Exec(x, run), i, j, k);
    SharedLagGrows(Exec(x, run), j, i, k);
  }
}
