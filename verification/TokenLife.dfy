/** The life of one token, from the login that prints it to the entry it buys, whatever else
    happens on either server in between and afterwards. */
module TokenLife {
  import opened Protocol
  import opened Token
  import opened Wire
  import opened Database
  import opened System
  import opened Handoff
  import World
  import L = LoginServer

  /** A game-auth packet carrying this token. */
  predicate Presents(ev: Event, token: Text) {
    ev.Receive? && ev.request == GameAuth(token)
  }

  predicate IssuesToken(ev: Event, token: Text) {
    ev.LoginIssue? && ev.token == token
  }

  // ----- a stored token -----

  lemma PacketKeepsRow(x: State, ev: Event, token: Text)
    requires token in x.tables.sessions && ev.Receive? && Enabled(x, ev) && !Presents(ev, token)
    ensures token in Receives(x, ev).tables.sessions
    ensures Receives(x, ev).tables.sessions[token] == x.tables.sessions[token]
  {
    if AdmissionOf(x, ev).Admitted? {
      AdmissionEffect(x.tables, ev.request.token, Env(x, ev));
    }
  }

  lemma StepKeepsRow(x: State, ev: Event, token: Text)
    requires token in x.tables.sessions && !Presents(ev, token)
    ensures token in Step(x, ev).tables.sessions && Step(x, ev).tables.sessions[token] == x.tables.sessions[token]
  {
    if Enabled(x, ev) {
      match ev
      case Receive(_, _, _, _) => PacketKeepsRow(x, ev, token);
      case TickEvent(order, failed) => SaveAllKeepsSessions(x.tables, World.Simulate(x.server.world), order, failed);
      case _ =>
    }
  }

  /** As long as nobody presents it, a stored token keeps its row: not even a login that draws the
      same token again changes it. */
  lemma {:induction false} TokenKeepsRow(x: State, run: seq<Event>, token: Text)
    requires token in x.tables.sessions && forall ev | ev in run :: !Presents(ev, token)
    ensures token in Exec(x, run).tables.sessions
    ensures Exec(x, run).tables.sessions[token] == x.tables.sessions[token]
  {
    if run != [] {
      var front := run[..|run| - 1];
      assert forall ev | ev in front :: ev in run;
      TokenKeepsRow(x, front, token);
      StepKeepsRow(Exec(x, front), run[|run| - 1], token);
    }
  }

  // ----- a spent token -----

  lemma PacketStoresNothing(x: State, ev: Event, token: Text)
    requires token !in x.tables.sessions && ev.Receive? && Enabled(x, ev)
    ensures token !in Receives(x, ev).tables.sessions
  {
    if AdmissionOf(x, ev).Admitted? {
      AdmissionEffect(x.tables, ev.request.token, Env(x, ev));
    }
  }

  lemma StepStoresNothing(x: State, ev: Event, token: Text)
    requires token !in x.tables.sessions && !IssuesToken(ev, token)
    ensures token !in Step(x, ev).tables.sessions
  {
    if Enabled(x, ev) {
      match ev
      case Receive(_, _, _, _) => PacketStoresNothing(x, ev, token);
      case TickEvent(order, failed) => SaveAllKeepsSessions(x.tables, World.Simulate(x.server.world), order, failed);
      case _ =>
    }
  }

  /** A token that is not stored stays so until a login issues it. */
  lemma {:induction false} TokenStaysSpent(x: State, run: seq<Event>, token: Text)
    requires token !in x.tables.sessions && forall ev | ev in run :: !IssuesToken(ev, token)
    ensures token !in Exec(x, run).tables.sessions
  {
    if run != [] {
      var front := run[..|run| - 1];
      assert forall ev | ev in front :: ev in run;
      TokenStaysSpent(x, front, token);
      StepStoresNothing(Exec(x, front), run[|run| - 1], token);
    }
  }

  // ----- the handoff -----

  /** An accepted login keeps its account, whatever happens. */
  ghost predicate AccountsKept(logins: seq<Login>, logins': seq<Login>) {
    |logins| <= |logins'| && forall l | 0 <= l < |logins| :: logins'[l].accountId == logins[l].accountId
  }

  lemma StepKeepsAccounts(x: State, ev: Event)
    ensures AccountsKept(x.logins, Step(x, ev).logins)
  {
  }

  lemma {:induction false} LoginsKeepAccounts(x: State, run: seq<Event>)
    ensures AccountsKept(x.logins, Exec(x, run).logins)
  {
    if run != [] {
      LoginsKeepAccounts(x, run[..|run| - 1]);
      StepKeepsAccounts(Exec(x, run[..|run| - 1]), run[|run| - 1]);
    }
  }

  /** The bytes: what the game server reads once the client has copied the redirect's token into its
      auth packet is that token. */
  lemma RedirectIsPresented(t: Tables, verify: L.Verifier, payload: Text, w: L.Weather, angle: Text -> Angle)
    requires L.OutcomeOf(t, verify, CMSG_AUTH_SESSION, payload, w).Redirected?
    ensures var o := L.OutcomeOf(t, verify, CMSG_AUTH_SESSION, payload, w);
            && |o.token| == TOKEN_LENGTH
            && var redirect := ReadRedirect(RedirectPacket(L.GAME_IP, L.GAME_PORT, o.token));
            && redirect.Some? && |redirect.value.token| == TOKEN_LENGTH
            && var auth := GameAuthPacket(redirect.value.token);
               ServerReads(auth.opcode, auth.payload, angle) == GameAuth(o.token)
  {
    TokenSurvivesHandoff(w.first, w.second, L.GAME_IP, L.GAME_PORT, angle);
  }

  /** The state once a credential check has been accepted, and the run `between` has followed. */
  ghost function Accepted(x: State, username: Text, between: seq<Event>): State {
    Exec(Step(x, LoginCheck(username, true, false)), between)
  }

  /** ... and then its token has been inserted, and the run `wait` has followed. */
  ghost function Issued(x: State, l: nat, token: Text, wait: seq<Event>): State {
    Exec(Step(x, LoginIssue(l, token, false)), wait)
  }

  lemma AcceptedKnowsAccount(x: State, username: Text, between: seq<Event>)
    requires LeastKey(AccountsNamed(x.tables, username)).Some?
    ensures var z := Accepted(x, username, between);
            |x.logins| < |z.logins| &&
            z.logins[|x.logins|].accountId == LeastKey(AccountsNamed(x.tables, username)).value
  {
    LoginsKeepAccounts(Step(x, LoginCheck(username, true, false)), between);
  }

  /** Inserting a token that is not stored stores its row, and as long as nobody presents it the row
      stays. */
  lemma IssuedStaysStored(z: State, l: nat, token: Text, wait: seq<Event>)
    requires TablesGood(z) && l < |z.logins| && !z.logins[l].done
    requires token !in z.tables.sessions && z.logins[l].accountId in z.tables.accounts
    requires forall ev | ev in wait :: !Presents(ev, token)
    ensures var v := Issued(z, l, token, wait);
            && TablesGood(v) && v.tables.accounts == z.tables.accounts
            && token in v.tables.sessions
            && v.tables.sessions[token] == SessionRow(z.logins[l].accountId, z.clock + 300_000_000)
  {
    var issue := LoginIssue(l, token, false);
    StepKeepsTables(z, issue);
    RunKeepsTables(Step(z, issue), wait);
    TokenKeepsRow(Step(z, issue), wait, token);
  }

  lemma TablesGoodThroughout(x: State, run: seq<Event>, username: Text, between: seq<Event>)
    requires Initial(x)
    ensures TablesGood(Exec(x, run)) && Exec(x, run).tables.accounts == x.tables.accounts
    ensures TablesGood(Accepted(Exec(x, run), username, between))
    ensures Accepted(Exec(x, run), username, between).tables.accounts == x.tables.accounts
  {
    RunKeepsTables(x, run);
    StepKeepsTables(Exec(x, run), LoginCheck(username, true, false));
    RunKeepsTables(Step(Exec(x, run), LoginCheck(username, true, false)), between);
  }

  /** The handoff over runs.  Take a credential check accepted at any point of any run, whatever both
      servers do between it and the insertion of its token, and whatever they do then short of
      presenting the token: an attempt to enter with it succeeds if and only if it comes before the
      five minutes from the insertion are over, no statement fails, and the account has a character
      or the new row's id is free; it then enters the world of the account that was checked. */
  lemma RedirectBuysOneEntry(x: State, run: seq<Event>, username: Text, between: seq<Event>, token: Text,
                             wait: seq<Event>, env: AuthEnv)
    requires Initial(x) && LeastKey(AccountsNamed(Exec(x, run).tables, username)).Some?
    requires var y := Exec(x, run);
             var z := Accepted(y, username, between);
             token !in z.tables.sessions && (|y.logins| < |z.logins| ==> !z.logins[|y.logins|].done)
    requires forall ev | ev in wait :: !Presents(ev, token)
    ensures var y := Exec(x, run);
            var z := Accepted(y, username, between);
            var v := Issued(z, |y.logins|, token, wait);
            var account := LeastKey(AccountsNamed(y.tables, username)).value;
            var entry := Admit(v.tables, token, env);
            && (entry.Admitted? <==>
                  && env.now < z.clock + 300_000_000
                  && env.fault !in {AtSession, AtDelete, AtCharacter, AtCommit}
                  && (CharactersOf(v.tables, account) != {} ||
                      (env.fault != AtInsert && env.serial !in v.tables.characters)))
            && (entry.Admitted? ==> entry.accountId == account && entry.username == username)
  {
    var y := Exec(x, run);
    var z, l := Accepted(y, username, between), |y.logins|;
    TablesGoodThroughout(x, run, username, between);
    AcceptedKnowsAccount(y, username, between);
    IssuedStaysStored(z, l, token, wait);
    AdmittedExactly(Issued(z, l, token, wait).tables, token, env);
  }

  /** ... and only one: from the entry on, the token is refused in every state that can be reached
      without a login that draws it again, and leaves the tables alone. */
  lemma SpentTokenIsRefused(x: State, ev: Event, later: seq<Event>, token: Text, again: AuthEnv)
    requires Presents(ev, token) && Enabled(x, ev) && AdmissionOf(x, ev).Admitted?
    requires forall other | other in later :: !IssuesToken(other, token)
    ensures token in x.tables.sessions && token !in Exec(Step(x, ev), later).tables.sessions
    ensures Admit(Exec(Step(x, ev), later).tables, token, again).Refused?
  {
    AdmissionEffect(x.tables, token, Env(x, ev));
    TokenStaysSpent(Step(x, ev), later, token);
  }
}
