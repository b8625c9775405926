/** Every departure is told to everybody who is there: on a player's stream the LEAVEs are exactly the
    departures since it entered, in order. */
module Departures {
  import opened Protocol
  import opened Database
  import opened World
  import opened System
  import opened Ownership
  import opened Streams
  import opened Replication

  /** The characters whose LEAVE is in `ms`, in order. */
  function LeavesIn(ms: seq<Message>): seq<nat> {
    if ms == [] then []
    else
      var front, m := LeavesIn(ms[..|ms| - 1]), ms[|ms| - 1];
      if m.PlayerLeave? then front + [m.leaveId] else front
  }

  /** The characters whose entity was removed in `h`, in order. */
  function LeftIn(h: seq<Record>): seq<nat> {
    if h == [] then []
    else
      var front, r := LeftIn(h[..|h| - 1]), h[|h| - 1];
      if r.Left? then front + [r.characterId] else front
  }

  lemma LeavesOfOneMore(ms: seq<Message>, m: Message)
    ensures LeavesIn(ms + [m]) == LeavesIn(ms) + if m.PlayerLeave? then [m.leaveId] else []
  {
    assert (ms + [m])[..|ms|] == ms;
  }

  lemma {:induction false} NoLeaves(ms: seq<Message>, more: seq<Message>)
    requires forall m | m in more :: !m.PlayerLeave?
    ensures LeavesIn(ms + more) == LeavesIn(ms)
  {
    if more == [] {
      assert ms + more == ms;
    } else {
      var front, m := more[..|more| - 1], more[|more| - 1];
      assert forall n | n in front :: n in more;
      NoLeaves(ms, front);
      assert ms + more == (ms + front) + [m];
      LeavesOfOneMore(ms + front, m);
    }
  }

  lemma LeftOfOneMore(h: seq<Record>, r: Record)
    ensures LeftIn(h + [r]) == LeftIn(h) + if r.Left? then [r.characterId] else []
  {
    assert (h + [r])[..|h|] == h;
  }

  /** The stream tells the departures since entry `k` of session `i`. */
  predicate TellsSince(h: seq<Record>, ms: seq<Message>, i: SessionId, k: nat) {
    k < |h| && h[k].Entered? && h[k].session == i && LeavesIn(ms) == LeftIn(h[k..])
  }

  ghost predicate Tells(h: seq<Record>, ms: seq<Message>, i: SessionId) {
    exists k: nat :: TellsSince(h, ms, i, k)
  }

  ghost predicate AllTold(x: State) {
    forall i: SessionId | Playing(x.server, i) :: Tells(x.history, x.server.sessions[i].sent, i)
  }

  // ----- one stream through one step -----

  /** Nothing about departures happened. */
  lemma StillTells(h: seq<Record>, ms: seq<Message>, i: SessionId, more: seq<Message>)
    requires Tells(h, ms, i) && forall m | m in more :: !m.PlayerLeave?
    ensures Tells(h, ms + more, i)
  {
    var k: nat :| TellsSince(h, ms, i, k);
    NoLeaves(ms, more);
    assert TellsSince(h, ms + more, i, k);
  }

  /** Another player entered. */
  lemma TellsAfterEntry(h: seq<Record>, ms: seq<Message>, i: SessionId, r: Record)
    requires Tells(h, ms, i) && !r.Left?
    ensures Tells(h + [r], ms, i)
  {
    var k: nat :| TellsSince(h, ms, i, k);
    assert (h + [r])[k..] == h[k..] + [r];
    LeftOfOneMore(h[k..], r);
    assert TellsSince(h + [r], ms, i, k);
  }

  /** A player left and its LEAVE was sent. */
  lemma TellsDeparture(h: seq<Record>, ms: seq<Message>, i: SessionId, c: nat)
    requires Tells(h, ms, i)
    ensures Tells(h + [Left(c)], ms + [PlayerLeave(c)], i)
  {
    var k: nat :| TellsSince(h, ms, i, k);
    assert (h + [Left(c)])[k..] == h[k..] + [Left(c)];
    LeftOfOneMore(h[k..], Left(c));
    LeavesOfOneMore(ms, PlayerLeave(c));
    assert TellsSince(h + [Left(c)], ms + [PlayerLeave(c)], i, k);
  }

  /** A player has just entered: its stream has rejections and its AUTH_OK. */
  lemma NewcomerTells(h: seq<Record>, ms: seq<Message>, i: SessionId, r: Record, c: nat)
    requires Rejections(ms) && r.Entered? && r.session == i
    ensures Tells(h + [r], ms + [AuthOk(c)], i)
  {
    NoLeaves([], ms + [AuthOk(c)]);
    assert [] + (ms + [AuthOk(c)]) == ms + [AuthOk(c)];
    assert (h + [r])[|h|..] == [] + [r];
    LeftOfOneMore([], r);
    assert TellsSince(h + [r], ms + [AuthOk(c)], i, |h|);
  }

  // ----- all streams through one step -----

  /** The players of `s'` were players of `s`, and got what `s'` has more, none of it a LEAVE. */
  ghost predicate QuietFor(s: Server, s': Server, i: SessionId) {
    Playing(s', i) ==>
      && Playing(s, i)
      && exists more: seq<Message> :: (forall m | m in more :: !m.PlayerLeave?) &&
           s'.sessions[i].sent == s.sessions[i].sent + more
  }

  lemma QuietStepTells(x: State, x': State)
    requires AllTold(x) && x'.history == x.history && forall i: SessionId :: QuietFor(x.server, x'.server, i)
    ensures AllTold(x')
  {
    forall i: SessionId | Playing(x'.server, i)
      ensures Tells(x'.history, x'.server.sessions[i].sent, i)
    {
      assert QuietFor(x.server, x'.server, i);
      var more: seq<Message> :| (forall m | m in more :: !m.PlayerLeave?) &&
        x'.server.sessions[i].sent == x.server.sessions[i].sent + more;
      StillTells(x.history, x.server.sessions[i].sent, i, more);
    }
  }

  lemma TickIsQuiet(x: State, ev: Event)
    requires Owned(x.server) && ev.TickEvent? && Enabled(x, ev)
    ensures forall i: SessionId :: QuietFor(x.server, Step(x, ev).server, i)
  {
    TickReaches(x.server, x.tables, ev.order, ev.failed);
    var s' := Step(x, ev).server;
    forall i: SessionId
      ensures QuietFor(x.server, s', i)
    {
      if Playing(s', i) {
        assert s'.sessions[i].sent == x.server.sessions[i].sent + StateMessages(s'.world, ev.order);
      }
    }
  }

  /** A packet that admits nobody sends no LEAVE to a player. */
  lemma PacketIsQuiet(x: State, ev: Event, i: SessionId)
    requires Owned(x.server) && ev.Receive? && Enabled(x, ev) && AdmissionOf(x, ev).Refused?
    ensures QuietFor(x.server, Receives(x, ev).server, i)
  {
    var s, s' := x.server, Receives(x, ev).server;
    if Playing(s', i) {
      if s'.sessions[i].sent == s.sessions[i].sent {
        assert s'.sessions[i].sent == s.sessions[i].sent + [];
      } else if ev.request.Ping? {
        assert s'.sessions[i].sent == s.sessions[i].sent + [Pong];
      } else if ev.request.ChatSay? {
        var e := EntityOf(s, ev.session);
        assert s'.sessions[i].sent == s.sessions[i].sent + [Chat(ev.request.channel, e.data.name, ev.request.text)];
      }
    }
  }

  lemma EntryTells(x: State, ev: Event)
    requires Owned(x.server) && StreamsFit(x.server) && AllTold(x)
    requires ev.Receive? && Enabled(x, ev) && AdmissionOf(x, ev).Admitted?
    ensures AllTold(Receives(x, ev))
  {
    var x', a := Receives(x, ev), AdmissionOf(x, ev);
    var r := Entered(ev.session, ev.request.token, a.accountId, a.characterId, x.clock);
    assert StreamFits(x.server, ev.session);
    forall i: SessionId | Playing(x'.server, i)
      ensures Tells(x'.history, x'.server.sessions[i].sent, i)
    {
      if i == ev.session {
        NewcomerTells(x.history, x.server.sessions[i].sent, i, r, a.characterId);
      } else {
        assert x'.server.sessions[i] == x.server.sessions[i];
        TellsAfterEntry(x.history, x.server.sessions[i].sent, i, r);
      }
    }
  }

  lemma PacketTells(x: State, ev: Event)
    requires Owned(x.server) && StreamsFit(x.server) && AllTold(x) && ev.Receive? && Enabled(x, ev)
    ensures AllTold(Receives(x, ev))
  {
    if AdmissionOf(x, ev).Admitted? {
      EntryTells(x, ev);
    } else {
      forall i: SessionId
        ensures QuietFor(x.server, Receives(x, ev).server, i)
      {
        PacketIsQuiet(x, ev, i);
      }
      assert x.history + [] == x.history;
      QuietStepTells(x, Receives(x, ev));
    }
  }

  lemma DestroyTells(x: State, k: nat, failed: bool)
    requires Owned(x.server) && AllTold(x) && k < |x.server.pending|
    ensures AllTold(Destroys(x, k, failed))
  {
    var x', d := Destroys(x, k, failed), x.server.pending[k];
    assert d in x.server.world;
    var c := x.server.world[d].data.characterId;
    forall i: SessionId | Playing(x'.server, i)
      ensures Tells(x'.history, x'.server.sessions[i].sent, i)
    {
      assert Playing(x.server, i) && i in x.server.registry;
      TellsDeparture(x.history, x.server.sessions[i].sent, i, c);
    }
  }

  /** Logins leave the streams alone and are no departures. */
  lemma LoginTells(x: State, ev: Event)
    requires AllTold(x) && (ev.LoginCheck? || ev.LoginIssue?) && Enabled(x, ev)
    ensures AllTold(Step(x, ev))
  {
    var x' := Step(x, ev);
    if x'.history != x.history {
      var r := x'.history[|x.history|];
      forall i: SessionId | Playing(x'.server, i)
        ensures Tells(x'.history, x'.server.sessions[i].sent, i)
      {
        TellsAfterEntry(x.history, x.server.sessions[i].sent, i, r);
      }
    }
  }

  lemma RestTells(x: State, ev: Event)
    requires AllTold(x) && (ev.Connect? || ev.DropSession? || ev.PassTime?) && Enabled(x, ev)
    ensures AllTold(Step(x, ev))
  {
    var x' := Step(x, ev);
    forall i: SessionId | Playing(x'.server, i)
      ensures Tells(x'.history, x'.server.sessions[i].sent, i)
    {
      assert Playing(x.server, i) && x'.server.sessions[i].sent == x.server.sessions[i].sent;
    }
  }

  lemma StepTells(x: State, ev: Event)
    requires Owned(x.server) && StreamsFit(x.server) && AllTold(x)
    ensures AllTold(Step(x, ev))
  {
    if Enabled(x, ev) {
      match ev
      case Receive(_, _, _, _) => PacketTells(x, ev);
      case TickEvent(_, _) =>
        TickIsQuiet(x, ev);
        QuietStepTells(x, Step(x, ev));
      case DestroyEntity(k, failed) => DestroyTells(x, k, failed);
      case LoginCheck(_, _, _) => LoginTells(x, ev);
      case LoginIssue(_, _, _) => LoginTells(x, ev);
      case _ => RestTells(x, ev);
    }
  }

  /** In every run, the LEAVEs on a live player's stream are exactly the departures since it entered:
      none is missed, repeated or out of order, and none from before its time. */
  lemma {:induction false} LeavesAreDepartures(x: State, run: seq<Event>)
    requires Initial(x)
    ensures AllTold(Exec(x, run))
  {
    if run != [] {
      var front := run[..|run| - 1];
      LeavesAreDepartures(x, front);
      RunKeepsOwned(x, front);
      RunKeepsStreams(x, front);
      StepTells(Exec(x, front), run[|run| - 1]);
    }
  }
}
