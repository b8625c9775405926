/** From password check to world entry: tokens are neither lost nor spent twice, and every
    entry can be traced to a check of its own. */
module Handoff {
  import opened Protocol
  import opened Database
  import opened World
  import opened System

  predicate Inserts(r: Record, token: Text) {
    r.Issued? && r.token == token
  }

  predicate Spends(r: Record, token: Text) {
    r.Entered? && r.token == token
  }

  function CountIssued(h: seq<Record>, token: Text): nat {
    if h == [] then 0 else CountIssued(h[..|h| - 1], token) + if Inserts(h[|h| - 1], token) then 1 else 0
  }

  function CountSpent(h: seq<Record>, token: Text): nat {
    if h == [] then 0 else CountSpent(h[..|h| - 1], token) + if Spends(h[|h| - 1], token) then 1 else 0
  }

  /** The issue of `token` that no entry has spent yet, by its place in the history. */
  function Outstanding(h: seq<Record>, token: Text): Option<nat> {
    if h == [] then None
    else if Inserts(h[|h| - 1], token) then Some(|h| - 1)
    else if Spends(h[|h| - 1], token) then None
    else Outstanding(h[..|h| - 1], token)
  }

  lemma OneMore(h: seq<Record>, r: Record, token: Text)
    ensures CountIssued(h + [r], token) == CountIssued(h, token) + if Inserts(r, token) then 1 else 0
    ensures CountSpent(h + [r], token) == CountSpent(h, token) + if Spends(r, token) then 1 else 0
    ensures Outstanding(h + [r], token) ==
            if Inserts(r, token) then Some(|h|) else if Spends(r, token) then None else Outstanding(h, token)
  {
    assert (h + [r])[..|h|] == h;
  }

  /** An outstanding issue is the last word about its token. */
  lemma {:induction false} OutstandingIsLast(h: seq<Record>, token: Text, k: nat)
    requires Outstanding(h, token) == Some(k)
    ensures k < |h| && Inserts(h[k], token)
    ensures forall l | k < l < |h| :: !Inserts(h[l], token) && !Spends(h[l], token)
  {
    if !Inserts(h[|h| - 1], token) {
      OutstandingIsLast(h[..|h| - 1], token, k);
    }
  }

  /** Entry `j` spent what issue `k` inserted. */
  predicate PaidBy(h: seq<Record>, j: nat, k: nat) {
    && k < j < |h| && h[j].Entered? && h[k].Issued?
    && Outstanding(h[..j], h[j].token) == Some(k)
  }

  /** ... for the same account, less than five minutes (of microseconds) after the insertion. */
  predicate InTime(entry: Record, issue: Record) {
    entry.Entered? && issue.Issued? && entry.account == issue.account && entry.token == issue.token &&
    issue.at <= entry.at < issue.at + 300_000_000
  }

  /** Issue `k` followed from the accepted check `m` on the same login connection. */
  predicate FollowsFrom(h: seq<Record>, k: nat, m: nat) {
    && m < k < |h| && h[k].Issued? && h[m].Checked?
    && h[m].login == h[k].login && h[m].account == h[k].account && h[m].at <= h[k].at
  }

  ghost predicate EntriesPaid(h: seq<Record>) {
    forall j | 0 <= j < |h| && h[j].Entered? :: exists k: nat :: PaidBy(h, j, k) && InTime(h[j], h[k])
  }

  ghost predicate IssuesChecked(h: seq<Record>) {
    && (forall k | 0 <= k < |h| && h[k].Issued? :: exists m: nat :: FollowsFrom(h, k, m))
    && (forall k, l | 0 <= k < l < |h| && h[k].Issued? && h[l].Issued? :: h[k].login != h[l].login)
  }

  /** The sessions table holds exactly the outstanding issues. */
  ghost predicate TableMatches(x: State) {
    forall token ::
      && (token in x.tables.sessions <==> Outstanding(x.history, token).Some?)
      && (token in x.tables.sessions ==>
            var k := Outstanding(x.history, token).value;
            && k < |x.history| && Inserts(x.history[k], token) && x.history[k].at <= x.clock
            && x.tables.sessions[token] == SessionRow(x.history[k].account, x.history[k].at + TOKEN_TTL))
  }

  ghost predicate CountsMatch(x: State) {
    forall token ::
      CountIssued(x.history, token) == CountSpent(x.history, token) + if token in x.tables.sessions then 1 else 0
  }

  /** Login connections remember their check and make one INSERT attempt. */
  ghost predicate LoginsMatch(x: State) {
    && (forall k | 0 <= k < |x.history| && x.history[k].Issued? ::
          x.history[k].login < |x.logins| && x.logins[x.history[k].login].done)
    && (forall l | 0 <= l < |x.logins| :: HasCheck(x, l))
  }

  ghost predicate HasCheck(x: State, l: nat)
    requires l < |x.logins|
  {
    exists m: nat :: CheckOf(x, l, m)
  }

  predicate CheckOf(x: State, l: nat, m: nat)
    requires l < |x.logins|
  {
    m < |x.history| && x.history[m].Checked? && x.history[m].login == l &&
    x.history[m].account == x.logins[l].accountId && x.history[m].at <= x.clock
  }

  ghost predicate Sound(x: State) {
    EntriesPaid(x.history) && IssuesChecked(x.history) && TableMatches(x) && CountsMatch(x) && LoginsMatch(x)
  }

  // ----- steps -----

  lemma HistoryGrows(h: seq<Record>, r: Record)
    requires EntriesPaid(h) && IssuesChecked(h)
    requires r.Entered? ==>
               Outstanding(h, r.token).Some? && Outstanding(h, r.token).value < |h| &&
               InTime(r, h[Outstanding(h, r.token).value])
    requires r.Issued? ==> exists m: nat :: FollowsFrom(h + [r], |h|, m)
    requires r.Issued? ==> forall k | 0 <= k < |h| && h[k].Issued? :: h[k].login != r.login
    ensures EntriesPaid(h + [r]) && IssuesChecked(h + [r])
  {
    var h' := h + [r];
    forall j | 0 <= j < |h'| && h'[j].Entered?
      ensures exists k: nat :: PaidBy(h', j, k) && InTime(h'[j], h'[k])
    {
      if j < |h| {
        var k: nat :| PaidBy(h, j, k) && InTime(h[j], h[k]);
        assert h'[..j] == h[..j];
        assert PaidBy(h', j, k);
      } else {
        assert h'[..j] == h;
        assert PaidBy(h', j, Outstanding(h, r.token).value);
      }
    }
    forall k | 0 <= k < |h'| && h'[k].Issued?
      ensures exists m: nat :: FollowsFrom(h', k, m)
    {
      if k < |h| {
        var m: nat :| FollowsFrom(h, k, m);
        assert FollowsFrom(h', k, m);
      }
    }
  }

  /** Logins keep their checks as the history grows. */
  lemma ChecksRemain(x: State, x': State)
    requires LoginsMatch(x) && x.clock <= x'.clock
    requires |x.history| <= |x'.history| && x'.history[..|x.history|] == x.history
    requires |x.logins| <= |x'.logins|
    requires forall l | 0 <= l < |x.logins| :: x'.logins[l].accountId == x.logins[l].accountId
    ensures forall l | 0 <= l < |x.logins| :: HasCheck(x', l)
  {
    forall l | 0 <= l < |x.logins|
      ensures HasCheck(x', l)
    {
      assert HasCheck(x, l);
      var m: nat :| CheckOf(x, l, m);
      assert x'.history[..|x.history|][m] == x'.history[m];
      assert CheckOf(x', l, m);
    }
  }

  /** A record that says nothing about tokens, and changes to the state that neither touch the
      sessions table nor undo a login. */
  lemma OtherRecord(x: State, x': State, r: Record)
    requires Sound(x) && !r.Issued? && !r.Entered?
    requires x'.history == x.history + [r] && x'.tables.sessions == x.tables.sessions && x.clock <= x'.clock
    requires |x.logins| <= |x'.logins| && forall l | 0 <= l < |x.logins| :: x'.logins[l] == x.logins[l]
    requires forall l | |x.logins| <= l < |x'.logins| :: HasCheck(x', l)
    ensures Sound(x')
  {
    HistoryGrows(x.history, r);
    ChecksRemain(x, x');
    forall token
      ensures Outstanding(x'.history, token) == Outstanding(x.history, token)
      ensures CountIssued(x'.history, token) == CountIssued(x.history, token)
      ensures CountSpent(x'.history, token) == CountSpent(x.history, token)
    {
      OneMore(x.history, r, token);
    }
  }

  lemma NoRecord(x: State, x': State)
    requires Sound(x)
    requires x'.history == x.history && x'.tables.sessions == x.tables.sessions && x.clock <= x'.clock
    requires |x'.logins| == |x.logins|
    requires forall l | 0 <= l < |x.logins| ::
               x'.logins[l].accountId == x.logins[l].accountId && (x.logins[l].done ==> x'.logins[l].done)
    ensures Sound(x')
  {
    ChecksRemain(x, x');
  }

  /** The table and the counts follow one token record; other tokens are unaffected. */
  lemma TokenRecord(x: State, x': State, r: Record, token: Text)
    requires TableMatches(x) && CountsMatch(x)
    requires (Inserts(r, token) && token !in x.tables.sessions) || (Spends(r, token) && token in x.tables.sessions)
    requires x'.history == x.history + [r] && x'.clock == x.clock
    requires x'.tables.sessions ==
             if r.Issued? then x.tables.sessions[token := SessionRow(r.account, x.clock + TOKEN_TTL)]
             else x.tables.sessions - {token}
    requires r.Issued? ==> r.at == x.clock
    ensures TableMatches(x') && CountsMatch(x')
  {
    forall t
      ensures CountIssued(x'.history, t) == CountSpent(x'.history, t) + if t in x'.tables.sessions then 1 else 0
    {
      OneMore(x.history, r, t);
    }
    forall t
      ensures t in x'.tables.sessions <==> Outstanding(x'.history, t).Some?
      ensures t in x'.tables.sessions ==>
                var k := Outstanding(x'.history, t).value;
                && k < |x'.history| && Inserts(x'.history[k], t) && x'.history[k].at <= x'.clock
                && x'.tables.sessions[t] == SessionRow(x'.history[k].account, x'.history[k].at + TOKEN_TTL)
    {
      OneMore(x.history, r, t);
    }
  }

  /** An issue has a check behind it, and no other issue on its login. */
  lemma IssueIsChecked(x: State, l: nat, r: Record)
    requires Sound(x) && l < |x.logins| && !x.logins[l].done
    requires r.Issued? && r.login == l && r.account == x.logins[l].accountId && r.at == x.clock
    ensures EntriesPaid(x.history + [r]) && IssuesChecked(x.history + [r])
  {
    assert HasCheck(x, l);
    var m: nat :| CheckOf(x, l, m);
    assert FollowsFrom(x.history + [r], |x.history|, m);
    HistoryGrows(x.history, r);
  }

  /** The login that has had its token is done, and every other as it was. */
  lemma IssueKeepsLogins(x: State, x': State, l: nat, r: Record)
    requires LoginsMatch(x) && l < |x.logins| && r.Issued? && r.login == l
    requires x'.history == x.history + [r] && x'.clock == x.clock
    requires x'.logins == x.logins[l := x.logins[l].(done := true)]
    ensures LoginsMatch(x')
  {
    ChecksRemain(x, x');
  }

  lemma IssueKeepsSound(x: State, l: nat, token: Text)
    requires Sound(x) && l < |x.logins| && !x.logins[l].done
    requires InsertToken(x.tables, token, x.logins[l].accountId, x.clock).Some?
    ensures Sound(Issues(x, l, token, false))
  {
    var x' := Issues(x, l, token, false);
    var r := Issued(l, token, x.logins[l].accountId, x.clock);
    IssueIsChecked(x, l, r);
    TokenRecord(x, x', r, token);
    IssueKeepsLogins(x, x', l, r);
  }

  lemma EntryKeepsSound(x: State, x': State, r: Record)
    requires Sound(x) && r.Entered? && r.token in x.tables.sessions
    requires r.at == x.clock < x.tables.sessions[r.token].expiresAt && r.account == x.tables.sessions[r.token].accountId
    requires x'.history == x.history + [r] && x'.clock == x.clock && x'.logins == x.logins
    requires x'.tables.sessions == x.tables.sessions - {r.token}
    ensures Sound(x')
  {
    HistoryGrows(x.history, r);
    TokenRecord(x, x', r, r.token);
    assert LoginsMatch(x') by { ChecksRemain(x, x'); }
  }

  lemma ReceiveKeepsSound(x: State, e: Event)
    requires Sound(x) && e.Receive? && Enabled(x, e)
    ensures Sound(Receives(x, e))
  {
    var x', a := Receives(x, e), AdmissionOf(x, e);
    if a.Refused? {
      assert x.history + [] == x.history;
      NoRecord(x, x');
    } else {
      AdmissionEffect(x.tables, e.request.token, Env(x, e));
      EntryKeepsSound(x, x', Entered(e.session, e.request.token, a.accountId, a.characterId, x.clock));
    }
  }

  lemma {:induction false} SaveAllKeepsSessions(t: Tables, world: map<EntityId, Entity>, order: seq<EntityId>,
                                                failed: set<EntityId>)
    requires forall e | e in order :: e in world
    ensures SaveAll(t, world, order, failed).sessions == t.sessions
  {
    if order != [] {
      SaveAllKeepsSessions(t, world, order[..|order| - 1], failed);
    }
  }

  lemma DestroyKeepsSound(x: State, k: nat, failed: bool)
    requires Sound(x) && k < |x.server.pending|
    ensures Sound(Destroys(x, k, failed))
  {
    var d := x.server.pending[k];
    if d in x.server.world {
      OtherRecord(x, Destroys(x, k, failed), Left(x.server.world[d].data.characterId));
    } else {
      assert x.history + [] == x.history;
      NoRecord(x, Destroys(x, k, failed));
    }
  }

  lemma CheckKeepsSound(x: State, username: Text, ok: bool, dbFails: bool)
    requires Sound(x)
    ensures Sound(Checks(x, username, ok, dbFails))
  {
    var x', found := Checks(x, username, ok, dbFails), LeastKey(AccountsNamed(x.tables, username));
    if x' != x {
      assert CheckOf(x', |x.logins|, |x.history|);
      OtherRecord(x, x', Checked(|x.logins|, found.value, x.clock));
    }
  }

  lemma AttemptKeepsSound(x: State, l: nat, token: Text, dbFails: bool)
    requires Sound(x) && l < |x.logins| && !x.logins[l].done
    ensures Sound(Issues(x, l, token, dbFails))
  {
    if !dbFails && InsertToken(x.tables, token, x.logins[l].accountId, x.clock).Some? {
      IssueKeepsSound(x, l, token);
    } else {
      NoRecord(x, Issues(x, l, token, dbFails));
    }
  }

  lemma StepKeepsSound(x: State, e: Event)
    requires Sound(x)
    ensures Sound(Step(x, e))
  {
    if Enabled(x, e) {
      match e
      case Receive(_, _, _, _) => ReceiveKeepsSound(x, e);
      case TickEvent(order, failed) =>
        SaveAllKeepsSessions(x.tables, Simulate(x.server.world), order, failed);
        NoRecord(x, Step(x, e));
      case DestroyEntity(k, failed) => DestroyKeepsSound(x, k, failed);
      case LoginCheck(username, ok, dbFails) => CheckKeepsSound(x, username, ok, dbFails);
      case LoginIssue(l, token, dbFails) => AttemptKeepsSound(x, l, token, dbFails);
      case _ => NoRecord(x, Step(x, e));
    }
  }

  lemma {:induction false} RunKeepsSound(x: State, run: seq<Event>)
    requires Sound(x)
    ensures Sound(Exec(x, run))
  {
    if run != [] {
      RunKeepsSound(x, run[..|run| - 1]);
      StepKeepsSound(Exec(x, run[..|run| - 1]), run[|run| - 1]);
    }
  }

  lemma InitiallySound(x: State)
    requires Initial(x)
    ensures Sound(x)
  {
  }

  // ----- results -----

  /** Conservation, for every run and token: successful inserts = entries + the row still stored. */
  lemma TokensAreConserved(x: State, run: seq<Event>, token: Text)
    requires Initial(x)
    ensures var y := Exec(x, run);
            CountIssued(y.history, token) == CountSpent(y.history, token) + if token in y.tables.sessions then 1 else 0
  {
    InitiallySound(x);
    RunKeepsSound(x, run);
    assert CountsMatch(Exec(x, run));
  }

  /** Entry, issue and check form a chain for one account, in this order, in time. */
  predicate Chain(h: seq<Record>, entry: nat, issue: nat, check: nat) {
    PaidBy(h, entry, issue) && InTime(h[entry], h[issue]) && FollowsFrom(h, issue, check)
  }

  lemma {:induction false} ChainsAreDisjoint(h: seq<Record>, j: nat, k: nat, m: nat, j': nat, k': nat, m': nat)
    requires IssuesChecked(h) && Chain(h, j, k, m) && Chain(h, j', k', m') && j < j'
    ensures k != k' && m != m'
  {
    if k == k' {
      OutstandingIsLast(h[..j'], h[j'].token, k);
      assert Spends(h[..j'][j], h[j'].token);
      assert false;
    }
  }

  /** Every world entry of every run has its own earlier token insertion, less than five
      minutes old, and its own earlier successful credential check for the same account; no
      two entries share either. */
  lemma EntriesMatchChecks(x: State, run: seq<Event>)
    requires Initial(x)
    ensures var h := Exec(x, run).history;
            && (forall j | 0 <= j < |h| && h[j].Entered? :: exists k: nat, m: nat :: Chain(h, j, k, m))
            && (forall j: nat, k: nat, m: nat, j': nat, k': nat, m': nat |
                  Chain(h, j, k, m) && Chain(h, j', k', m') && j != j' :: k != k' && m != m')
  {
    InitiallySound(x);
    RunKeepsSound(x, run);
    var h := Exec(x, run).history;
    assert EntriesPaid(h) && IssuesChecked(h);
    forall j | 0 <= j < |h| && h[j].Entered?
      ensures exists k: nat, m: nat :: Chain(h, j, k, m)
    {
      var k: nat :| PaidBy(h, j, k) && InTime(h[j], h[k]);
      var m: nat :| FollowsFrom(h, k, m);
      assert Chain(h, j, k, m);
    }
    forall j: nat, k: nat, m: nat, j': nat, k': nat, m': nat |
      Chain(h, j, k, m) && Chain(h, j', k', m') && j != j'
      ensures k != k' && m != m'
    {
      if j < j' {
        ChainsAreDisjoint(h, j, k, m, j', k', m');
      } else {
        ChainsAreDisjoint(h, j', k', m', j, k, m);
      }
    }
  }

  // ----- characters -----

  /** Accounts never change and each has at most one character, named after it. */
  ghost predicate TablesGood(x: State) {
    CharactersConsistent(x.tables) && UsernamesUnique(x.tables)
  }

  lemma {:induction false} SaveAllKeepsConsistent(t: Tables, world: map<EntityId, Entity>, order: seq<EntityId>,
                                                  failed: set<EntityId>)
    requires forall e | e in order :: e in world
    requires CharactersConsistent(t)
    ensures CharactersConsistent(SaveAll(t, world, order, failed)) &&
            SaveAll(t, world, order, failed).accounts == t.accounts
  {
    if order != [] {
      SaveAllKeepsConsistent(t, world, order[..|order| - 1], failed);
    }
  }

  lemma ReceiveKeepsTables(x: State, e: Event)
    requires TablesGood(x) && e.Receive? && Enabled(x, e)
    ensures TablesGood(Receives(x, e)) && Receives(x, e).tables.accounts == x.tables.accounts
  {
    if AdmissionOf(x, e).Admitted? {
      AdmissionEffect(x.tables, e.request.token, Env(x, e));
    }
  }

  lemma DestroyKeepsTables(x: State, k: nat, failed: bool)
    requires TablesGood(x) && k < |x.server.pending|
    ensures TablesGood(Destroys(x, k, failed)) && Destroys(x, k, failed).tables.accounts == x.tables.accounts
  {
  }

  lemma StepKeepsTables(x: State, e: Event)
    requires TablesGood(x)
    ensures TablesGood(Step(x, e)) && Step(x, e).tables.accounts == x.tables.accounts
  {
    if Enabled(x, e) {
      match e
      case Receive(_, _, _, _) => ReceiveKeepsTables(x, e);
      case TickEvent(order, failed) => SaveAllKeepsConsistent(x.tables, Simulate(x.server.world), order, failed);
      case DestroyEntity(k, saveFails) => DestroyKeepsTables(x, k, saveFails);
      case _ =>
    }
  }

  lemma {:induction false} RunKeepsTables(x: State, run: seq<Event>)
    requires TablesGood(x)
    ensures TablesGood(Exec(x, run)) && Exec(x, run).tables.accounts == x.tables.accounts
  {
    if run != [] {
      RunKeepsTables(x, run[..|run| - 1]);
      StepKeepsTables(Exec(x, run[..|run| - 1]), run[|run| - 1]);
    }
  }

  /** Auth is all or nothing.  A game-auth packet that does not admit leaves the tables, the
      world, the session list and the session's state as they were and answers AUTH_FAIL; and
      in reachable states a good token is refused only by a failing statement or a clash of
      the sequence's id, never by the unique character name. */
  lemma AuthIsAllOrNothing(x: State, run: seq<Event>, e: Event)
    requires Initial(x) && e.Receive? && e.request.GameAuth? && Enabled(Exec(x, run), e)
    requires Exec(x, run).server.sessions[e.session].phase == WaitingForAuth
    ensures var y, y' := Exec(x, run), Exec(x, run + [e]);
            var i, token := e.session, e.request.token;
            && (y'.server.sessions[i].phase == Authenticated <==>
                  && TokenGood(y.tables, token, y.clock)
                  && e.fault !in {AtSession, AtDelete, AtCharacter, AtCommit}
                  && (CharactersOf(y.tables, y.tables.sessions[token].accountId) != {} ||
                      (e.fault != AtInsert && e.serial !in y.tables.characters)))
            && (y'.server.sessions[i].phase != Authenticated ==>
                  y' == y.(server := y.server.(sessions := y.server.sessions[i :=
                    y.server.sessions[i].(sent := y.server.sessions[i].sent + [AuthFail])])))
  {
    var y := Exec(x, run);
    ExecSnoc(x, run, e);
    RunKeepsTables(x, run);
    AdmittedExactly(y.tables, e.request.token, Env(y, e));
    assert y.history + [] == y.history;
  }
}
