/** Login server, game server, tables and clock as one step system, with a history of what
    happened to tokens and world entries. */
module System {
  import opened Protocol
  import opened Database
  import opened World

  /** A login connection whose credentials were accepted; `done` once its INSERT was tried. */
  datatype Login = Login(accountId: nat, done: bool)

  datatype Record =
    | Checked(login: nat, account: nat, at: int)
    | Issued(login: nat, token: Text, account: nat, at: int)
    | Entered(session: SessionId, token: Text, account: nat, characterId: nat, at: int)
    | Left(characterId: nat)

  datatype State = State(server: Server, tables: Tables, clock: int, logins: seq<Login>, history: seq<Record>)

  /** Everything a scheduler, a client, a database failure or the passing of time can decide.
      An event that does not apply in a state leaves it as it is. */
  datatype Event =
    | Connect
    | Receive(session: SessionId, request: Request, serial: nat, fault: Fault)
    | TickEvent(order: seq<EntityId>, failed: set<EntityId>)
    | DropSession(session: SessionId)
    | DestroyEntity(index: nat, saveFails: bool)
    | PassTime(micros: nat)
    | LoginCheck(username: Text, passwordMatches: bool, dbFails: bool)
    | LoginIssue(login: nat, token: Text, dbFails: bool)

  ghost predicate Enabled(x: State, e: Event) {
    match e
    case Receive(i, _, _, _) => i < |x.server.sessions| && x.server.sessions[i].alive && x.server.sessions[i].open
    case TickEvent(order, _) => Enumerates(order, x.server.world)
    case DropSession(i) => i < |x.server.sessions| && x.server.sessions[i].alive
    case DestroyEntity(k, _) => k < |x.server.pending|
    case LoginIssue(l, _, _) => l < |x.logins| && !x.logins[l].done
    case _ => true
  }

  function Env(x: State, e: Event): AuthEnv
    requires e.Receive?
  {
    AuthEnv(x.clock, e.serial, e.fault)
  }

  /** The admission, if this packet brings one about. */
  function AdmissionOf(x: State, e: Event): Admission {
    if e.Receive? && e.session < |x.server.sessions| && x.server.sessions[e.session].phase == WaitingForAuth &&
       e.request.GameAuth?
    then Admit(x.tables, e.request.token, Env(x, e))
    else Refused
  }

  function Receives(x: State, e: Event): State
    requires e.Receive? && e.session < |x.server.sessions|
  {
    var (server, tables) := ProcessPacket(x.server, x.tables, e.session, e.request, Env(x, e));
    var a := AdmissionOf(x, e);
    var news := if a.Admitted? then [Entered(e.session, e.request.token, a.accountId, a.characterId, x.clock)] else [];
    x.(server := server, tables := tables, history := x.history + news)
  }

  function Destroys(x: State, k: nat, failed: bool): State
    requires k < |x.server.pending|
  {
    var (server, tables) := RunDestroy(x.server, x.tables, k, failed);
    var e := x.server.pending[k];
    var news := if e in x.server.world then [Left(x.server.world[e].data.characterId)] else [];
    x.(server := server, tables := tables, history := x.history + news)
  }

  /** verify_credentials: the account row is found and the password verifier accepts. */
  function Checks(x: State, username: Text, passwordMatches: bool, dbFails: bool): State {
    var found := LeastKey(AccountsNamed(x.tables, username));
    if dbFails || found.None? || !passwordMatches then x
    else x.(logins := x.logins + [Login(found.value, false)],
            history := x.history + [Checked(|x.logins|, found.value, x.clock)])
  }

  /** issue_session_token: one INSERT attempt per accepted login. */
  function Issues(x: State, l: nat, token: Text, dbFails: bool): State
    requires l < |x.logins|
  {
    var account := x.logins[l].accountId;
    var inserted := if dbFails then None else InsertToken(x.tables, token, account, x.clock);
    var x' := x.(logins := x.logins[l := x.logins[l].(done := true)]);
    if inserted.None? then x'
    else x'.(tables := inserted.value, history := x.history + [Issued(l, token, account, x.clock)])
  }

  ghost function Apply(x: State, e: Event): State
    requires Enabled(x, e)
  {
    match e
    case Connect => x.(server := Accept(x.server))
    case Receive(_, _, _, _) => Receives(x, e)
    case TickEvent(order, failed) =>
      var (server, tables) := Tick(x.server, x.tables, order, failed);
      x.(server := server, tables := tables)
    case DropSession(i) => x.(server := Drop(x.server, i))
    case DestroyEntity(k, failed) => Destroys(x, k, failed)
    case PassTime(d) => x.(clock := x.clock + d)
    case LoginCheck(username, ok, dbFails) => Checks(x, username, ok, dbFails)
    case LoginIssue(l, token, dbFails) => Issues(x, l, token, dbFails)
  }

  ghost function Step(x: State, e: Event): State {
    if Enabled(x, e) then Apply(x, e) else x
  }

  /** The state after a run. */
  ghost function Exec(x: State, run: seq<Event>): State {
    if run == [] then x else Step(Exec(x, run[..|run| - 1]), run[|run| - 1])
  }

  /** Both servers up, nobody has logged in yet: accounts exist, the other tables are empty. */
  ghost predicate Initial(x: State) {
    && x.server == EMPTY
    && x.tables.sessions == map[] && x.tables.characters == map[]
    && UsernamesUnique(x.tables)
    && x.logins == [] && x.history == []
  }

  lemma ExecSnoc(x: State, run: seq<Event>, e: Event)
    ensures Exec(x, run + [e]) == Step(Exec(x, run), e)
  {
    assert (run + [e])[..|run|] == run;
  }

  // ----- runs with the states they go through -----

  /** The states of `trace` follow one another by the events of `run`. */
  ghost predicate Traced(trace: seq<State>, run: seq<Event>) {
    |trace| == |run| + 1 && forall k | 0 <= k < |run| :: trace[k + 1] == Step(trace[k], run[k])
  }

  /** One event leads from `x` to `y`. */
  ghost predicate Leads(x: State, ev: Event, y: State) {
    Traced([x, y], [ev])
  }

  lemma LeadsIsStep(x: State, ev: Event, y: State)
    ensures Leads(x, ev, y) <==> y == Step(x, ev)
  {
    var trace, run := [x, y], [ev];
    if Leads(x, ev, y) {
      assert trace[0 + 1] == Step(trace[0], run[0]);
    }
  }

  lemma TracedNext(trace: seq<State>, run: seq<Event>, ev: Event, y: State)
    requires Traced(trace, run) && Leads(trace[|run|], ev, y)
    ensures Traced(trace + [y], run + [ev])
  {
    LeadsIsStep(trace[|run|], ev, y);
    var more, whole := trace + [y], run + [ev];
    forall k | 0 <= k < |whole|
      ensures more[k + 1] == Step(more[k], whole[k])
    {
      if k < |run| {
        assert trace[k + 1] == Step(trace[k], run[k]);
      }
    }
  }

  /** A trace ends where the run leads. */
  lemma {:induction false} TracedIsExec(trace: seq<State>, run: seq<Event>)
    requires Traced(trace, run)
    ensures trace[|run|] == Exec(trace[0], run)
  {
    if run != [] {
      var n := |run| - 1;
      var before, front := trace[..|run|], run[..n];
      forall k | 0 <= k < n
        ensures before[k + 1] == Step(before[k], front[k])
      {
        assert trace[k + 1] == Step(trace[k], run[k]);
      }
      TracedIsExec(before, front);
      assert trace[n + 1] == Step(trace[n], run[n]);
    }
  }

  /** Events do not look at the history: from states that differ in nothing else they lead to states
      that differ in nothing else. */
  predicate SameButHistory(x: State, y: State) {
    x.(history := []) == y.(history := [])
  }

  lemma LoginsIgnoreHistory(x: State, y: State, e: Event)
    requires SameButHistory(x, y) && (e.LoginCheck? || e.LoginIssue?)
    ensures SameButHistory(Step(x, e), Step(y, e))
  {
  }

  lemma ExecOne(x: State, a: Event)
    ensures Exec(x, [a]) == Step(x, a)
  {
    assert [a][..0] == [];
  }

  lemma ExecTwo(x: State, a: Event, b: Event)
    ensures Exec(x, [a, b]) == Step(Step(x, a), b)
  {
    var one, two := [a], [a, b];
    assert two[..1] == one && two[1] == b;
    assert one[..0] == [] && one[0] == a;
    assert Exec(x, one) == Step(Exec(x, one[..0]), a);
  }

  lemma {:induction false} ExecConcat(x: State, a: seq<Event>, b: seq<Event>)
    ensures Exec(x, a + b) == Exec(Exec(x, a), b)
  {
    if b == [] {
      assert a + b == a;
    } else {
      var front := b[..|b| - 1];
      ExecConcat(x, a, front);
      assert (a + b)[..|a + b| - 1] == a + front;
    }
  }
}
