/** The login server: one packet per connection, a credential check, a fresh token, a
    redirect.  Its two transactions are the steps `Checks` and `Issues` of module System. */
module LoginServer {
  import opened Protocol
  import opened Token
  import opened Wire
  import opened Database
  import World
  import System

  const LOGIN_SIZE := 68
  const GAME_IP: Text := [49, 50, 55, 46, 48, 46, 48, 46, 49]
  const GAME_PORT: U16 := 12345

  /** The Argon2 verifier: does the password match the stored hash? */
  type Verifier = (Text, Text) -> bool

  /** What one request meets: the clock, two draws of the generator, failing transactions. */
  datatype Weather = Weather(now: int, first: Draw, second: Draw, checkFails: bool, insertFails: bool)

  /** The verifier's answer for the account of that name. */
  predicate Matches(t: Tables, username: Text, password: Text, verify: Verifier) {
    var found := LeastKey(AccountsNamed(t, username));
    found.Some? && verify(password, t.accounts[found.value].passwordHash)
  }

  /** Usernames being unique, the verifier answers for the one account of that name. */
  lemma MatchesExactly(t: Tables, username: Text, password: Text, verify: Verifier)
    requires UsernamesUnique(t)
    ensures Matches(t, username, password, verify) <==>
            exists a :: a in t.accounts && t.accounts[a].username == username &&
                        verify(password, t.accounts[a].passwordHash)
  {
    var found := LeastKey(AccountsNamed(t, username));
    if found.None? {
      assert forall a | a in t.accounts :: t.accounts[a].username == username ==> a in AccountsNamed(t, username);
    }
  }

  /** A login message's two NUL-terminated fields. */
  function UsernameIn(payload: Text): Text
    requires |payload| >= LOGIN_SIZE
  {
    CString(payload[..32])
  }

  function PasswordIn(payload: Text): Text
    requires |payload| >= LOGIN_SIZE
  {
    CString(payload[32..64])
  }

  datatype Outcome = Silent | HungUp | Redirected(account: nat, token: Text, tables: Tables)

  /** What becomes of an accepted login: a redirect if its token can be inserted. */
  function GrantTo(t: Tables, account: nat, w: Weather): (o: Outcome)
    ensures o.Redirected? ==> |o.token| == TOKEN_LENGTH && o.account == account
  {
    TokenLength(w.first, w.second);
    var token := PrintToken(w.first, w.second);
    var inserted := if w.insertFails then None else InsertToken(t, token, account, w.now);
    if inserted.None? then HungUp else Redirected(account, token, inserted.value)
  }

  /** What a connection's one request leads to. */
  function OutcomeOf(t: Tables, verify: Verifier, opcode: U16, payload: Text, w: Weather): Outcome {
    if opcode != CMSG_AUTH_SESSION then Silent
    else if |payload| < LOGIN_SIZE || w.checkFails || !Matches(t, UsernameIn(payload), PasswordIn(payload), verify)
    then HungUp
    else GrantTo(t, LeastKey(AccountsNamed(t, UsernameIn(payload))).value, w)
  }

  /** A request that earns a redirect: a whole login message under its opcode whose two fields are the
      name of an account and a password the verifier accepts for it, no statement failing, and a token
      that is not stored yet. */
  ghost predicate Welcome(t: Tables, verify: Verifier, opcode: U16, payload: Text, w: Weather) {
    && opcode == 3 && |payload| >= 68 && !w.checkFails && !w.insertFails
    && PrintToken(w.first, w.second) !in t.sessions
    && exists a :: a in t.accounts && t.accounts[a].username == CString(payload[..32]) &&
                   verify(CString(payload[32..64]), t.accounts[a].passwordHash)
  }

  /** The tables with the token added, for five minutes, for the account of that name. */
  predicate Stored(t: Tables, t': Tables, verify: Verifier, payload: Text, w: Weather, account: nat)
    requires |payload| >= 68
  {
    && account in t.accounts && t.accounts[account].username == CString(payload[..32])
    && verify(CString(payload[32..64]), t.accounts[account].passwordHash)
    && t' == t.(sessions := t.sessions[PrintToken(w.first, w.second) := SessionRow(account, w.now + 300_000_000)])
  }

  /** Exactly what a request leads to: usernames being unique, silence for another opcode, a redirect
      for a request that earns it, and a hang-up otherwise. */
  lemma OutcomeExactly(t: Tables, verify: Verifier, opcode: U16, payload: Text, w: Weather)
    requires UsernamesUnique(t)
    ensures var o := OutcomeOf(t, verify, opcode, payload, w);
            && (o.Silent? <==> opcode != 3)
            && (o.Redirected? <==> Welcome(t, verify, opcode, payload, w))
            && (o.Redirected? ==>
                  o.token == PrintToken(w.first, w.second) && Stored(t, o.tables, verify, payload, w, o.account))
  {
    if opcode == CMSG_AUTH_SESSION && |payload| >= LOGIN_SIZE {
      MatchesExactly(t, UsernameIn(payload), PasswordIn(payload), verify);
    }
  }

  function TablesAfter(t: Tables, o: Outcome): Tables {
    if o.Redirected? then o.tables else t
  }

  /** What is sent: one redirect carrying the token, or nothing. */
  function RepliesTo(o: Outcome): seq<Packet> {
    if o.Redirected? && |o.token| == TOKEN_LENGTH then [RedirectPacket(GAME_IP, GAME_PORT, o.token)] else []
  }

  /** The system steps of a request that goes all the way: the `l`-th accepted login. */
  function RunOf(payload: Text, l: nat, w: Weather, t: Tables, verify: Verifier): seq<System.Event> {
    if |payload| < LOGIN_SIZE then []
    else
      [System.LoginCheck(UsernameIn(payload), Matches(t, UsernameIn(payload), PasswordIn(payload), verify),
                         w.checkFails),
       System.LoginIssue(l, PrintToken(w.first, w.second), w.insertFails)]
  }

  class LoginServer {
    const db: Connection
    const verify: Verifier
    ghost var logins: seq<System.Login>
    ghost var history: seq<System.Record>

    constructor (db: Connection, verify: Verifier)
      ensures this.db == db && this.verify == verify && logins == [] && history == []
    {
      this.db, this.verify := db, verify;
      logins, history := [], [];
    }

    /** The whole system's state, given the game server's and the clock. */
    ghost function Now(game: World.Server, clock: int): System.State
      reads this, db
    {
      System.State(game, db.tables, clock, logins, history)
    }
  }

  class LoginSession {
    const server: LoginServer
    var accountId: Option<nat>
    var sessionToken: Text
    var open: bool
    var sent: seq<Packet>
    ghost var login: nat

    constructor (server: LoginServer)
      ensures this.server == server && accountId == None && open && sent == []
    {
      this.server := server;
      accountId, sessionToken, open, sent := None, [], true, [];
    }

    /** The credentials were accepted and no token has been asked for yet. */
    ghost predicate Accepted()
      reads this, server
    {
      && accountId.Some? && login < |server.logins| && server.logins[login] == System.Login(accountId.value, false)
      && open && sent == []
    }

    /** verify_credentials. */
    method VerifyCredentials(username: Text, password: Text, dbFails: bool, ghost game: World.Server, ghost clock: int)
      returns (accepted: bool)
      modifies this`accountId, this`login, server`logins, server`history
      ensures accepted == (!dbFails && Matches(server.db.tables, username, password, server.verify))
      ensures server.Now(game, clock) ==
              System.Checks(old(server.Now(game, clock)), username,
                Matches(server.db.tables, username, password, server.verify), dbFails)
      ensures UsernamesUnique(server.db.tables) ==>
                (accepted <==>
                   && !dbFails
                   && exists a :: && a in server.db.tables.accounts
                                  && server.db.tables.accounts[a].username == username
                                  && server.verify(password, server.db.tables.accounts[a].passwordHash))
      ensures accepted ==>
                && accountId.Some? && accountId.value in server.db.tables.accounts
                && server.db.tables.accounts[accountId.value].username == username
                && server.verify(password, server.db.tables.accounts[accountId.value].passwordHash)
      ensures if accepted then
                && accountId == LeastKey(AccountsNamed(server.db.tables, username))
                && login == old(|server.logins|) < |server.logins|
                && server.logins[login] == System.Login(accountId.value, false)
              else accountId == old(accountId) && server.logins == old(server.logins)
    {
      if UsernamesUnique(server.db.tables) {
        MatchesExactly(server.db.tables, username, password, server.verify);
      }
      if dbFails {
        return false;
      }
      var tables := server.db.tables;
      var found := LeastKey(AccountsNamed(tables, username));
      if found.None? {
        return false;
      }
      var storedHash := tables.accounts[found.value].passwordHash;
      if !server.verify(password, storedHash) {
        return false;
      }
      accountId := found;
      login := |server.logins|;
      server.logins := server.logins + [System.Login(found.value, false)];
      server.history := server.history + [System.Checked(login, found.value, clock)];
      return true;
    }

    /** issue_session_token. */
    method IssueSessionToken(w: Weather, ghost game: World.Server) returns (issued: bool)
      requires accountId.Some? && login < |server.logins| && server.logins[login].accountId == accountId.value
      modifies this`sessionToken, server`logins, server`history, server.db
      ensures sessionToken == PrintToken(w.first, w.second)
      ensures issued ==
              (!w.insertFails && InsertToken(old(server.db.tables), sessionToken, accountId.value, w.now).Some?)
      ensures server.Now(game, w.now) == System.Issues(old(server.Now(game, w.now)), login, sessionToken, w.insertFails)
    {
      sessionToken := PrintToken(w.first, w.second);
      server.logins := server.logins[login := server.logins[login].(done := true)];
      var inserted := InsertToken(server.db.tables, sessionToken, accountId.value, w.now);
      if w.insertFails || inserted.None? {
        return false;
      }
      server.db.tables := inserted.value;
      server.history := server.history + [System.Issued(login, sessionToken, accountId.value, w.now)];
      return true;
    }

    /** send_login_response. */
    method SendLoginResponse()
      requires |sessionToken| == TOKEN_LENGTH
      modifies this`sent
      ensures sent == old(sent) + [RedirectPacket(GAME_IP, GAME_PORT, sessionToken)]
    {
      sent := sent + [Pack(SMSG_AUTH_RESPONSE, CField(GAME_IP, 16) + PutU16(GAME_PORT) + sessionToken)];
    }

    /** Completion of the redirect's write. */
    method OnRedirectWritten()
      requires open && |sent| > 0
      modifies this`open
      ensures !open
    {
      open := false;
    }

    /** The second half of process_login_request, once the credentials were accepted. */
    method Grant(w: Weather, ghost game: World.Server)
      requires Accepted()
      modifies this`sessionToken, this`open, this`sent, server`logins, server`history, server.db
      ensures Answered(GrantTo(old(server.db.tables), accountId.value, w))
      ensures server.Now(game, w.now) ==
              System.Step(old(server.Now(game, w.now)),
                          System.LoginIssue(login, PrintToken(w.first, w.second), w.insertFails))
    {
      TokenLength(w.first, w.second);
      var issued := IssueSessionToken(w, game);
      if !issued {
        open := false;
        return;
      }
      SendLoginResponse();
    }

    /** What a request did to this connection and to the tables. */
    twostate predicate Answered(o: Outcome)
      reads this, server, server.db
    {
      && server.db.tables == TablesAfter(old(server.db.tables), o)
      && open == !o.HungUp? && sent == RepliesTo(o)
      && (o.Redirected? ==> accountId == Some(o.account) && |o.token| == TOKEN_LENGTH)
    }

    /** A request that earns it, and no other, is sent one redirect, to 127.0.0.1:12345 and with a token
        that is now stored for the account of that name and password; any other request under the login
        opcode has the connection closed; and nothing else happens to the tables. */
    twostate predicate RightlyAnswered(opcode: U16, payload: Text, w: Weather)
      reads this, server, server.db
    {
      && open == (opcode != 3 || Welcome(old(server.db.tables), server.verify, opcode, payload, w))
      && if Welcome(old(server.db.tables), server.verify, opcode, payload, w) then
           && |PrintToken(w.first, w.second)| == TOKEN_LENGTH
           && sent == [RedirectPacket([49, 50, 55, 46, 48, 46, 48, 46, 49], 12345, PrintToken(w.first, w.second))]
           && accountId.Some?
           && Stored(old(server.db.tables), server.db.tables, server.verify, payload, w, accountId.value)
         else sent == [] && server.db.tables == old(server.db.tables)
    }

    /** process_login_request past its size check: the credential check, and the second half if it
        is accepted. */
    method LogIn(payload: Text, w: Weather, ghost game: World.Server) returns (accepted: bool)
      requires accountId.None? && open && sent == [] && |payload| >= LOGIN_SIZE
      modifies this, server`logins, server`history, server.db
      ensures Answered(OutcomeOf(old(server.db.tables), server.verify, CMSG_AUTH_SESSION, payload, w))
      ensures accepted == (!w.checkFails && Matches(old(server.db.tables), UsernameIn(payload), PasswordIn(payload),
                                                    server.verify))
      ensures var run := RunOf(payload, |old(server.logins)|, w, old(server.db.tables), server.verify);
              var checked := System.Step(old(server.Now(game, w.now)), run[0]);
              server.Now(game, w.now) == if accepted then System.Step(checked, run[1]) else checked
    {
      var username, password := CString(payload[..32]), CString(payload[32..64]);
      accepted := VerifyCredentials(username, password, w.checkFails, game, w.now);
      if accepted {
        Grant(w, game);
      } else {
        open := false;
      }
    }

    /** process_login_request. */
    method ProcessLoginRequest(opcode: U16, payload: Text, w: Weather, ghost game: World.Server)
      returns (ghost run: seq<System.Event>)
      requires accountId.None? && open && sent == []
      modifies this, server`logins, server`history, server.db
      ensures Answered(OutcomeOf(old(server.db.tables), server.verify, opcode, payload, w))
      ensures run <= RunOf(payload, |old(server.logins)|, w, old(server.db.tables), server.verify)
      ensures OutcomeOf(old(server.db.tables), server.verify, opcode, payload, w).Redirected? ==> |run| == 2
      ensures UsernamesUnique(old(server.db.tables)) ==> RightlyAnswered(opcode, payload, w)
      ensures server.Now(game, w.now) == System.Exec(old(server.Now(game, w.now)), run)
    {
      run := [];
      if UsernamesUnique(server.db.tables) {
        OutcomeExactly(server.db.tables, server.verify, opcode, payload, w);
      }
      if opcode != CMSG_AUTH_SESSION {
        return;
      }
      if |payload| < LOGIN_SIZE {
        open := false;
        return;
      }
      run := RunOf(payload, |server.logins|, w, server.db.tables, server.verify);
      System.ExecTwo(server.Now(game, w.now), run[0], run[1]);
      System.ExecOne(server.Now(game, w.now), run[0]);
      var accepted := LogIn(payload, w, game);
      if !accepted {
        run := [run[0]];
      }
    }

    /** A connection's whole life: its one request, and the close once a redirect is written.  Only
        a foreign opcode leaves the connection open; a redirect is the last thing sent on it. */
    method Converse(opcode: U16, payload: Text, w: Weather, ghost game: World.Server)
      requires accountId.None? && open && sent == []
      modifies this, server`logins, server`history, server.db
      ensures open <==> opcode != CMSG_AUTH_SESSION
      ensures var o := OutcomeOf(old(server.db.tables), server.verify, opcode, payload, w);
              server.db.tables == TablesAfter(old(server.db.tables), o) && sent == RepliesTo(o)
    {
      ghost var run := ProcessLoginRequest(opcode, payload, w, game);
      if |sent| > 0 {
        OnRedirectWritten();
      }
    }
  }

  /** Nothing else stores a token: without a redirect the tables stay as they were, and a
      redirect's token was not stored before. */
  lemma OnlyRedirectsStore(t: Tables, verify: Verifier, opcode: U16, payload: Text, w: Weather, token: Text)
    ensures var o := OutcomeOf(t, verify, opcode, payload, w);
            var after := if o.Redirected? then o.tables else t;
            && (token in after.sessions && token !in t.sessions ==>
                  && o.Redirected? && token == o.token
                  && after.sessions[token] == SessionRow(o.account, w.now + 300_000_000))
            && (token in t.sessions ==> token in after.sessions && after.sessions[token] == t.sessions[token])
            && after.accounts == t.accounts && after.characters == t.characters
  {
  }
}
