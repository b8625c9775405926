/** Who the entities of the world are: each plays a stored character, under the name of that
    character's account. */
module Identity {
  import opened Protocol
  import opened Database
  import opened World
  import opened System
  import opened Handoff

  predicate PlaysStored(t: Tables, d: PlayerData) {
    d.characterId in t.characters && t.characters[d.characterId].name == d.name
  }

  ghost predicate Identified(x: State) {
    forall e | e in x.server.world :: PlaysStored(x.tables, x.server.world[e].data)
  }

  /** No row goes away and no row is renamed. */
  ghost predicate NamesKept(t: Tables, t': Tables) {
    forall c | c in t.characters :: c in t'.characters && t'.characters[c].name == t.characters[c].name
  }

  lemma {:induction false} SaveAllKeepsNames(t: Tables, world: map<EntityId, Entity>, order: seq<EntityId>,
                                             failed: set<EntityId>)
    requires forall e | e in order :: e in world
    ensures NamesKept(t, SaveAll(t, world, order, failed))
  {
    if order != [] {
      SaveAllKeepsNames(t, world, order[..|order| - 1], failed);
    }
  }

  lemma AdmissionIdentifies(t: Tables, token: Text, env: AuthEnv)
    requires CharactersConsistent(t) && UsernamesUnique(t) && Admit(t, token, env).Admitted?
    ensures var a := Admit(t, token, env);
            PlaysStored(a.tables, PlayerData(a.username, a.characterId)) && NamesKept(t, a.tables)
  {
    AdmissionEffect(t, token, env);
  }

  lemma PacketKeepsNames(x: State, ev: Event)
    requires TablesGood(x) && ev.Receive? && Enabled(x, ev)
    ensures NamesKept(x.tables, Receives(x, ev).tables)
  {
    if AdmissionOf(x, ev).Admitted? {
      AdmissionIdentifies(x.tables, ev.request.token, Env(x, ev));
    }
  }

  lemma DestroyKeepsNames(x: State, k: nat, failed: bool)
    requires k < |x.server.pending|
    ensures NamesKept(x.tables, Destroys(x, k, failed).tables)
  {
  }

  lemma StepKeepsNames(x: State, ev: Event)
    requires TablesGood(x)
    ensures NamesKept(x.tables, Step(x, ev).tables)
  {
    if Enabled(x, ev) {
      match ev
      case TickEvent(order, failed) => SaveAllKeepsNames(x.tables, Simulate(x.server.world), order, failed);
      case Receive(_, _, _, _) => PacketKeepsNames(x, ev);
      case DestroyEntity(k, saveFails) => DestroyKeepsNames(x, k, saveFails);
      case _ =>
    }
  }

  /** Entities keep their data; a new one has the data of an admission. */
  lemma StepData(x: State, ev: Event, e: EntityId)
    requires e in Step(x, ev).server.world
    ensures var d := Step(x, ev).server.world[e].data;
            || (e in x.server.world && x.server.world[e].data == d)
            || (AdmissionOf(x, ev).Admitted? && Step(x, ev).tables == AdmissionOf(x, ev).tables &&
                d == PlayerData(AdmissionOf(x, ev).username, AdmissionOf(x, ev).characterId))
  {
  }

  lemma StepKeepsIdentified(x: State, ev: Event)
    requires TablesGood(x) && Identified(x)
    ensures Identified(Step(x, ev))
  {
    StepKeepsNames(x, ev);
    var x' := Step(x, ev);
    forall e | e in x'.server.world
      ensures PlaysStored(x'.tables, x'.server.world[e].data)
    {
      StepData(x, ev, e);
      if AdmissionOf(x, ev).Admitted? {
        AdmissionIdentifies(x.tables, ev.request.token, Env(x, ev));
      }
    }
  }

  lemma {:induction false} RunKeepsIdentified(x: State, run: seq<Event>)
    requires TablesGood(x) && Identified(x)
    ensures Identified(Exec(x, run))
  {
    if run != [] {
      var front := run[..|run| - 1];
      RunKeepsIdentified(x, front);
      RunKeepsTables(x, front);
      StepKeepsIdentified(Exec(x, front), run[|run| - 1]);
    }
  }

  lemma OneCharacterPerName(x: State, d: EntityId, e: EntityId)
    requires TablesGood(x) && Identified(x) && d in x.server.world && e in x.server.world
    ensures var c := x.tables.characters[x.server.world[e].data.characterId];
            c.accountId in x.tables.accounts && x.tables.accounts[c.accountId].username == x.server.world[e].data.name
    ensures x.server.world[d].data.name == x.server.world[e].data.name <==>
            x.server.world[d].data.characterId == x.server.world[e].data.characterId
  {
    assert PlaysStored(x.tables, x.server.world[d].data) && PlaysStored(x.tables, x.server.world[e].data);
  }

  /** In every reachable state an entity's name is the username of the account whose character
      it plays, and two entities have one name exactly when they play one character: a name, and
      so a whisper's target, stands for one account. */
  lemma NamesAreAccounts(x: State, run: seq<Event>, d: EntityId, e: EntityId)
    requires Initial(x) && d in Exec(x, run).server.world && e in Exec(x, run).server.world
    ensures var y := Exec(x, run);
            var dataD, dataE := y.server.world[d].data, y.server.world[e].data;
            && dataE.characterId in y.tables.characters
            && y.tables.characters[dataE.characterId].accountId in x.tables.accounts
            && x.tables.accounts[y.tables.characters[dataE.characterId].accountId].username == dataE.name
            && (dataD.name == dataE.name <==> dataD.characterId == dataE.characterId)
  {
    RunKeepsIdentified(x, run);
    RunKeepsTables(x, run);
    var y := Exec(x, run);
    assert PlaysStored(y.tables, y.server.world[e].data);
    OneCharacterPerName(y, d, e);
  }
}
