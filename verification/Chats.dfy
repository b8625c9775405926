/** What the chats on a stream can look like: heard channels only, senders that are usernames, texts
    no longer than the server lets them be. */
module Chats {
  import opened Protocol
  import opened Database
  import opened World
  import opened System
  import opened Handoff
  import opened Identity
  import Wire

  /** The request is what the dispatcher makes of some packet. */
  ghost predicate Decoded(request: Request) {
    exists opcode: Wire.U16, payload: Text, angle: Text -> Angle :: Wire.ServerReads(opcode, payload, angle) == request
  }

  ghost predicate AllDecoded(run: seq<Event>) {
    forall ev | ev in run && ev.Receive? :: Decoded(ev.request)
  }

  /** A column of type VARCHAR holds no NUL. */
  predicate UsernamesAreText(t: Tables) {
    forall a | a in t.accounts :: 0 !in t.accounts[a].username
  }

  /** A chat that somebody can hear and that its packet can carry. */
  predicate Printable(m: Message) {
    m.Chat? ==>
      && (m.channel.Say? || m.channel.Yell? || m.channel.Whisper?)
      && 0 !in m.sender && |m.text| <= MAX_CHAT_MESSAGE_LEN
  }

  predicate AllPrintable(ms: seq<Message>) {
    forall k | 0 <= k < |ms| :: Printable(ms[k])
  }

  predicate StreamsPrintable(s: Server) {
    forall i | 0 <= i < |s.sessions| :: AllPrintable(s.sessions[i].sent)
  }

  /** What is read as a chat has a text cut to the limit. */
  lemma DecodedChats(request: Request)
    requires Decoded(request) && request.ChatSay?
    ensures |request.text| <= MAX_CHAT_MESSAGE_LEN
  {
    var opcode: Wire.U16, payload: Text, angle: Text -> Angle :|
      Wire.ServerReads(opcode, payload, angle) == request;
  }

  /** In every state an entity's name is a username. */
  lemma NamesAreText(x: State, e: EntityId)
    requires TablesGood(x) && Identified(x) && UsernamesAreText(x.tables) && e in x.server.world
    ensures 0 !in x.server.world[e].data.name
  {
    OneCharacterPerName(x, e, e);
  }

  /** Every stream is as it was, or has got `msgs`, or is new and empty. */
  predicate StreamsTake(s: Server, s': Server, msgs: seq<Message>) {
    forall i | 0 <= i < |s'.sessions| ::
      if i < |s.sessions| then s'.sessions[i].sent == s.sessions[i].sent ||
                               s'.sessions[i].sent == s.sessions[i].sent + msgs
      else s'.sessions[i].sent == []
  }

  lemma TakingKeepsPrintable(s: Server, s': Server, msgs: seq<Message>)
    requires StreamsPrintable(s) && StreamsTake(s, s', msgs) && AllPrintable(msgs)
    ensures StreamsPrintable(s')
  {
  }

  lemma ChatIsPrintable(s: Server, i: SessionId, channel: Channel, target: Text, text: Text)
    requires StreamsPrintable(s) && |text| <= MAX_CHAT_MESSAGE_LEN
    requires InWorld(s, i) ==> 0 !in EntityOf(s, i).data.name
    ensures StreamsPrintable(HandleChat(s, i, channel, target, text))
  {
    if InWorld(s, i) && !channel.Guild? && !channel.OtherChannel? {
      TakingKeepsPrintable(s, HandleChat(s, i, channel, target, text), [Chat(channel, EntityOf(s, i).data.name, text)]);
    }
  }

  lemma PacketKeepsPrintable(x: State, ev: Event)
    requires TablesGood(x) && Identified(x) && UsernamesAreText(x.tables) && StreamsPrintable(x.server)
    requires ev.Receive? && Enabled(x, ev) && Decoded(ev.request)
    ensures StreamsPrintable(Receives(x, ev).server)
  {
    var i, s, s' := ev.session, x.server, Receives(x, ev).server;
    if s.sessions[i].phase == WaitingForAuth {
      var a := AdmissionOf(x, ev);
      TakingKeepsPrintable(s, s', [if a.Admitted? then AuthOk(a.characterId) else AuthFail]);
    } else if ev.request.ChatSay? {
      DecodedChats(ev.request);
      if InWorld(s, i) {
        NamesAreText(x, s.sessions[i].entityId);
      }
      ChatIsPrintable(s, i, ev.request.channel, ev.request.target, ev.request.text);
    } else {
      TakingKeepsPrintable(s, s', [Pong]);
    }
  }

  lemma TickKeepsPrintable(s: Server, t: Tables, order: seq<EntityId>, failed: set<EntityId>)
    requires StreamsPrintable(s) && forall e | e in order :: e in s.world
    ensures StreamsPrintable(Tick(s, t, order, failed).0)
  {
    TakingKeepsPrintable(s, Tick(s, t, order, failed).0, StateMessages(Simulate(s.world), order));
  }

  lemma DestroyKeepsPrintable(s: Server, t: Tables, k: nat, failed: bool)
    requires StreamsPrintable(s) && k < |s.pending|
    ensures StreamsPrintable(RunDestroy(s, t, k, failed).0)
  {
    if s.pending[k] in s.world {
      TakingKeepsPrintable(s, RunDestroy(s, t, k, failed).0, [PlayerLeave(s.world[s.pending[k]].data.characterId)]);
    }
  }

  lemma StepKeepsPrintable(x: State, ev: Event)
    requires TablesGood(x) && Identified(x) && UsernamesAreText(x.tables) && StreamsPrintable(x.server)
    requires ev.Receive? ==> Decoded(ev.request)
    ensures StreamsPrintable(Step(x, ev).server)
  {
    if Enabled(x, ev) {
      match ev
      case Connect => TakingKeepsPrintable(x.server, Accept(x.server), []);
      case Receive(_, _, _, _) => PacketKeepsPrintable(x, ev);
      case TickEvent(order, failed) => TickKeepsPrintable(x.server, x.tables, order, failed);
      case DropSession(i) => TakingKeepsPrintable(x.server, Drop(x.server, i), []);
      case DestroyEntity(k, failed) => DestroyKeepsPrintable(x.server, x.tables, k, failed);
      case _ =>
    }
  }

  lemma {:induction false} RunKeepsPrintable(x: State, run: seq<Event>)
    requires TablesGood(x) && Identified(x) && UsernamesAreText(x.tables) && StreamsPrintable(x.server)
    requires AllDecoded(run)
    ensures StreamsPrintable(Exec(x, run).server)
  {
    if run != [] {
      var front := run[..|run| - 1];
      RunKeepsPrintable(x, front);
      RunKeepsTables(x, front);
      RunKeepsIdentified(x, front);
      StepKeepsPrintable(Exec(x, front), run[|run| - 1]);
    }
  }

  /** Whatever is received, as long as it was read from packets: every chat on every stream is a say,
      a yell or a whisper, has a sender without a NUL and a text that fits. */
  lemma ChatsAreWellFormed(x: State, run: seq<Event>, i: SessionId)
    requires Initial(x) && UsernamesAreText(x.tables) && AllDecoded(run) && i < |Exec(x, run).server.sessions|
    ensures forall m | m in Exec(x, run).server.sessions[i].sent && m.Chat? ::
              && (m.channel.Say? || m.channel.Yell? || m.channel.Whisper?)
              && 0 !in m.sender && |m.text| <= 255
  {
    RunKeepsPrintable(x, run);
    var sent := Exec(x, run).server.sessions[i].sent;
    forall m | m in sent && m.Chat?
      ensures Printable(m)
    {
      var k :| 0 <= k < |sent| && sent[k] == m;
      assert AllPrintable(sent);
    }
  }
}
