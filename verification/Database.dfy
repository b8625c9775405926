/** The tables the two servers share, and the one transaction each server runs on them. */
module Database {
  import opened Protocol

  datatype Account = Account(username: Text, passwordHash: Text)
  datatype SessionRow = SessionRow(accountId: nat, expiresAt: int)
  datatype CharacterRow = CharacterRow(accountId: nat, name: Text, x: real, y: real, z: real)

  datatype Tables = Tables(accounts: map<nat, Account>,
                           sessions: map<Text, SessionRow>,
                           characters: map<nat, CharacterRow>)

  /** Five minutes, in microseconds. */
  const TOKEN_TTL: int := 300_000_000

  lemma {:induction false} LeastExists(s: set<nat>) returns (least: nat)
    requires s != {}
    ensures least in s && forall j | j in s :: least <= j
  {
    var k :| k in s;
    if s == {k} {
      least := k;
    } else {
      var m := LeastExists(s - {k});
      assert s == (s - {k}) + {k};
      least := if k < m then k else m;
    }
  }

  /** The first row of a result ordered by id. */
  function LeastKey(s: set<nat>): (r: Option<nat>)
    ensures r.None? <==> s == {}
    ensures r.Some? ==> r.value in s && forall k | k in s :: r.value <= k
  {
    if s == {} then None
    else
      assert exists k :: k in s && forall j | j in s :: k <= j by { var least := LeastExists(s); }
      var k :| k in s && forall j | j in s :: k <= j;
      Some(k)
  }

  function CharactersOf(t: Tables, accountId: nat): set<nat> {
    set c | c in t.characters && t.characters[c].accountId == accountId
  }

  function AccountsNamed(t: Tables, username: Text): set<nat> {
    set a | a in t.accounts && t.accounts[a].username == username
  }

  predicate NameTaken(t: Tables, name: Text) {
    exists c | c in t.characters :: t.characters[c].name == name
  }

  /** UPDATE characters SET pos ... WHERE id: no row, no effect. */
  function SavePosition(t: Tables, characterId: nat, x: real, y: real, z: real): Tables {
    if characterId in t.characters then
      t.(characters := t.characters[characterId := t.characters[characterId].(x := x, y := y, z := z)])
    else t
  }

  /** The statement of the auth transaction that throws, if any. */
  datatype Fault = NoFault | AtSession | AtDelete | AtCharacter | AtInsert | AtCommit

  /** `serial` is the id the sequence would hand to an INSERT. */
  datatype AuthEnv = AuthEnv(now: int, serial: nat, fault: Fault)

  datatype Admission =
    | Refused
    | Admitted(accountId: nat, username: Text, characterId: nat, x: real, y: real, z: real, tables: Tables)

  /** The token buys entry: it is stored, unexpired, and its account exists. */
  predicate TokenGood(t: Tables, token: Text, now: int) {
    token in t.sessions && now < t.sessions[token].expiresAt && t.sessions[token].accountId in t.accounts
  }

  /** Loading (or creating) the account's character inside the transaction. */
  function LoadCharacter(t: Tables, accountId: nat, env: AuthEnv): Option<(nat, Tables)>
    requires accountId in t.accounts
  {
    var found := LeastKey(CharactersOf(t, accountId));
    if env.fault == AtCharacter then None
    else if found.Some? then Some((found.value, t))
    else if env.fault == AtInsert || env.serial in t.characters ||
      NameTaken(t, t.accounts[accountId].username) then None
    else Some((env.serial,
               t.(characters := t.characters[env.serial :=
                 CharacterRow(accountId, t.accounts[accountId].username, 0.0, 0.0, 0.0)])))
  }

  /** The game server's auth transaction as one atomic step on the tables. */
  function Admit(t: Tables, token: Text, env: AuthEnv): Admission {
    if env.fault == AtSession || !TokenGood(t, token, env.now) || env.fault == AtDelete then Refused
    else
      var accountId := t.sessions[token].accountId;
      var loaded := LoadCharacter(t.(sessions := t.sessions - {token}), accountId, env);
      if loaded.None? || env.fault == AtCommit then Refused
      else
        var (c, t') := loaded.value;
        var row := t'.characters[c];
        Admitted(accountId, t.accounts[accountId].username, c, row.x, row.y, row.z, t')
  }

  /** The login server's INSERT: the token column is the primary key, the account must exist. */
  function InsertToken(t: Tables, token: Text, accountId: nat, now: int): Option<Tables> {
    if token in t.sessions || accountId !in t.accounts then None
    else Some(t.(sessions := t.sessions[token := SessionRow(accountId, now + TOKEN_TTL)]))
  }

  /** What the schema and the servers together maintain about characters: at most one per
      account, named after it. */
  predicate CharactersConsistent(t: Tables) {
    && (forall c | c in t.characters ::
          && t.characters[c].accountId in t.accounts
          && t.characters[c].name == t.accounts[t.characters[c].accountId].username)
    && (forall c, d | c in t.characters && d in t.characters &&
          t.characters[c].accountId == t.characters[d].accountId :: c == d)
  }

  /** accounts.username is UNIQUE. */
  predicate UsernamesUnique(t: Tables) {
    forall a, b | a in t.accounts && b in t.accounts && t.accounts[a].username == t.accounts[b].username :: a == b
  }

  /** The character INSERT can only be reached when the account's name is free, so it never
      trips over the UNIQUE name column. */
  lemma InsertNeverClashes(t: Tables, accountId: nat)
    requires CharactersConsistent(t) && UsernamesUnique(t) && accountId in t.accounts
    requires LeastKey(CharactersOf(t, accountId)).None?
    ensures !NameTaken(t, t.accounts[accountId].username)
  {
    assert forall c | c in t.characters :: c !in CharactersOf(t, accountId);
  }

  /** Exactly when a token buys entry: it is good and no statement fails.  With consistent
      tables the unique name column never stands in the way. */
  lemma AdmittedExactly(t: Tables, token: Text, env: AuthEnv)
    requires CharactersConsistent(t) && UsernamesUnique(t)
    ensures Admit(t, token, env).Admitted? <==>
            && token in t.sessions && env.now < t.sessions[token].expiresAt
            && t.sessions[token].accountId in t.accounts
            && env.fault !in {AtSession, AtDelete, AtCharacter, AtCommit}
            && (CharactersOf(t, t.sessions[token].accountId) != {} ||
                (env.fault != AtInsert && env.serial !in t.characters))
  {
    if TokenGood(t, token, env.now) {
      var t0 := t.(sessions := t.sessions - {token});
      var a := t.sessions[token].accountId;
      assert CharactersOf(t0, a) == CharactersOf(t, a);
      if CharactersOf(t, a) == {} {
        InsertNeverClashes(t0, a);
      }
    }
  }

  /** An admission consumes exactly its token, loads a character of the token's account with
      that row's position, and leaves the other accounts' rows alone. */
  lemma AdmissionEffect(t: Tables, token: Text, env: AuthEnv)
    requires Admit(t, token, env).Admitted?
    ensures var a := Admit(t, token, env);
            && TokenGood(t, token, env.now)
            && a.accountId == t.sessions[token].accountId
            && a.tables.accounts == t.accounts
            && a.tables.sessions == t.sessions - {token}
            && t.characters.Keys <= a.tables.characters.Keys <= t.characters.Keys + {a.characterId}
            && (forall c | c in t.characters :: a.tables.characters[c] == t.characters[c])
            && a.characterId in a.tables.characters
            && a.tables.characters[a.characterId].accountId == a.accountId
            && (a.x, a.y, a.z) == (a.tables.characters[a.characterId].x, a.tables.characters[a.characterId].y,
                                   a.tables.characters[a.characterId].z)
            && (a.characterId !in t.characters ==> (a.x, a.y, a.z) == (0.0, 0.0, 0.0))
    ensures CharactersConsistent(t) ==> CharactersConsistent(Admit(t, token, env).tables)
  {
    var a := Admit(t, token, env);
    var t0 := t.(sessions := t.sessions - {token});
    assert CharactersOf(t0, a.accountId) == CharactersOf(t, a.accountId);
    if CharactersConsistent(t) {
      forall c, d | c in a.tables.characters && d in a.tables.characters &&
                    a.tables.characters[c].accountId == a.tables.characters[d].accountId
        ensures c == d
      {
        if a.characterId !in t.characters {
          assert c in t.characters && t.characters[c].accountId == a.accountId ==> c in CharactersOf(t0, a.accountId);
          assert d in t.characters && t.characters[d].accountId == a.accountId ==> d in CharactersOf(t0, a.accountId);
        }
      }
    }
  }

  /** Which character an admission loads: the account's first by id if it has one, with no row written;
      otherwise a new row under the sequence's id, at the origin, named after the account. */
  lemma AdmissionLoads(t: Tables, token: Text, env: AuthEnv)
    requires Admit(t, token, env).Admitted?
    ensures var a := Admit(t, token, env);
            var own := CharactersOf(t, a.accountId);
            if own != {} then
              a.characterId in own && (forall c | c in own :: a.characterId <= c) && a.tables.characters == t.characters
            else
              && a.characterId == env.serial && env.serial !in t.characters
              && a.tables.characters == t.characters[env.serial := CharacterRow(a.accountId, a.username, 0.0, 0.0, 0.0)]
  {
    var a := Admit(t, token, env);
    assert CharactersOf(t.(sessions := t.sessions - {token}), a.accountId) == CharactersOf(t, a.accountId);
  }

  /** A server's connection, with the tables behind it. */
  class Connection {
    var tables: Tables

    constructor (tables: Tables)
      ensures this.tables == tables
    {
      this.tables := tables;
    }
  }
}
