/** Nobody is in the world without a password: behind every entry is a login turn of the schedule with
    the right one. */
module Passwords {
  import opened Protocol
  import opened Wire
  import opened Database
  import opened System
  import opened Handoff
  import opened Servers
  import L = LoginServer

  /** A login request with the account's name and a password that the verifier accepts for it. */
  predicate RightLogin(t: Turn, tables: Tables, account: nat, verify: L.Verifier) {
    && t.Login? && |t.payload| >= 68 && account in tables.accounts
    && tables.accounts[account].username == CString(t.payload[..32])
    && verify(CString(t.payload[32..64]), tables.accounts[account].passwordHash)
  }

  function RightLogins(schedule: seq<Turn>, tables: Tables, account: nat, verify: L.Verifier): nat {
    if schedule == [] then 0
    else RightLogins(schedule[..|schedule| - 1], tables, account, verify) +
         if RightLogin(schedule[|schedule| - 1], tables, account, verify) then 1 else 0
  }

  function ChecksOf(h: seq<Record>, account: nat): nat {
    if h == [] then 0
    else ChecksOf(h[..|h| - 1], account) + if h[|h| - 1].Checked? && h[|h| - 1].account == account then 1 else 0
  }

  lemma OneMoreCheck(h: seq<Record>, r: Record, account: nat)
    ensures ChecksOf(h + [r], account) ==
            ChecksOf(h, account) + if r.Checked? && r.account == account then 1 else 0
  {
    assert (h + [r])[..|h|] == h;
  }

  lemma {:induction false} SomeCheck(h: seq<Record>, m: nat, account: nat)
    requires m < |h| && h[m].Checked? && h[m].account == account
    ensures ChecksOf(h, account) > 0
  {
    if m < |h| - 1 {
      SomeCheck(h[..|h| - 1], m, account);
    }
  }

  lemma {:induction false} SomeLogin(schedule: seq<Turn>, tables: Tables, account: nat, verify: L.Verifier)
    requires RightLogins(schedule, tables, account, verify) > 0
    ensures exists n :: 0 <= n < |schedule| && RightLogin(schedule[n], tables, account, verify)
  {
    if !RightLogin(schedule[|schedule| - 1], tables, account, verify) {
      SomeLogin(schedule[..|schedule| - 1], tables, account, verify);
    }
  }

  /** One event adds at most one check, and only a credential check that was accepted does. */
  lemma StepChecks(x: State, ev: Event, account: nat)
    ensures var h, h' := x.history, Step(x, ev).history;
            && ChecksOf(h, account) <= ChecksOf(h', account) <= ChecksOf(h, account) + 1
            && (ChecksOf(h', account) > ChecksOf(h, account) ==>
                  ev.LoginCheck? && ev.passwordMatches && !ev.dbFails &&
                  LeastKey(AccountsNamed(x.tables, ev.username)) == Some(account))
  {
    var h' := Step(x, ev).history;
    if h' != x.history {
      assert h' == x.history + [h'[|x.history|]];
      OneMoreCheck(x.history, h'[|x.history|], account);
    }
  }

  lemma ServedCheckIsRight(t: Turn, ev: Event, x: State, account: nat, verify: L.Verifier)
    requires Serves(t, ev, x, verify) && ev.LoginCheck? && ev.passwordMatches
    requires LeastKey(AccountsNamed(x.tables, ev.username)) == Some(account)
    ensures RightLogin(t, x.tables, account, verify)
  {
  }

  /** A turn adds a check for an account only if it is a right login for it. */
  lemma TurnChecks(t: Turn, trace: seq<State>, run: seq<Event>, trace': seq<State>, run': seq<Event>, account: nat,
                   verify: L.Verifier)
    requires Traced(trace, run) && Traced(trace', run') && TurnTaken(t, trace, run, trace', run', verify)
    ensures ChecksOf(trace'[|run'|].history, account) <=
            ChecksOf(trace[|run|].history, account) +
            if RightLogin(t, trace[|run|].tables, account, verify) then 1 else 0
  {
    if Offered(t, trace[|run|]) {
      var x, ev := trace[|run|], run'[|run|];
      assert trace'[|run|] == x;
      assert trace'[|run| + 1] == Step(trace'[|run|], run'[|run|]);
      StepChecks(x, ev, account);
      if ChecksOf(Step(x, ev).history, account) > ChecksOf(x.history, account) {
        ServedCheckIsRight(t, ev, x, account, verify);
      }
    }
  }

  lemma SameAccounts(t: Turn, tables: Tables, tables': Tables, account: nat, verify: L.Verifier)
    requires tables.accounts == tables'.accounts
    ensures RightLogin(t, tables, account, verify) <==> RightLogin(t, tables', account, verify)
  {
  }

  lemma TracePrefix(trace: seq<State>, run: seq<Event>, k: nat)
    requires Traced(trace, run) && k <= |run|
    ensures Traced(trace[..k + 1], run[..k])
  {
    var before, front := trace[..k + 1], run[..k];
    forall n | 0 <= n < k
      ensures before[n + 1] == Step(before[n], front[n])
    {
      assert trace[n + 1] == Step(trace[n], run[n]);
    }
  }

  /** The checks recorded for an account are at most the right logins for it in the schedule. */
  lemma {:induction false} ChecksAreLogins(schedule: seq<Turn>, trace: seq<State>, run: seq<Event>, account: nat,
                                           verify: L.Verifier)
    requires Traced(trace, run) && Initial(trace[0]) && Follows(schedule, trace, run, verify)
    ensures ChecksOf(trace[|run|].history, account) <= RightLogins(schedule, trace[0].tables, account, verify)
    decreases |schedule|
  {
    if schedule != [] {
      var front, t := schedule[..|schedule| - 1], schedule[|schedule| - 1];
      var k :| 0 <= k <= |run| && Follows(front, trace[..k + 1], run[..k], verify) &&
        TurnTaken(t, trace[..k + 1], run[..k], trace, run, verify);
      TracePrefix(trace, run, k);
      ChecksAreLogins(front, trace[..k + 1], run[..k], account, verify);
      TurnChecks(t, trace[..k + 1], run[..k], trace, run, account, verify);
      TracedIsExec(trace[..k + 1], run[..k]);
      RunKeepsTables(trace[0], run[..k]);
      SameAccounts(t, trace[0].tables, trace[k].tables, account, verify);
    }
  }

  /** Through any schedule of both servers, whoever enters the world does so for an account for which
      the schedule has a login with its name and a password the verifier accepts; and accepted checks,
      of which every entry has its own (Handoff.EntriesMatchChecks), are never more than such logins. */
  lemma EntriesHavePasswords(schedule: seq<Turn>, trace: seq<State>, run: seq<Event>, verify: L.Verifier)
    requires Traced(trace, run) && Initial(trace[0]) && Follows(schedule, trace, run, verify)
    ensures var h := trace[|run|].history;
            && (forall j | 0 <= j < |h| && h[j].Entered? ::
                  exists n :: 0 <= n < |schedule| && RightLogin(schedule[n], trace[0].tables, h[j].account, verify))
            && (forall account: nat ::
                  ChecksOf(h, account) <= RightLogins(schedule, trace[0].tables, account, verify))
  {
    var h := trace[|run|].history;
    TracedIsExec(trace, run);
    EntriesMatchChecks(trace[0], run);
    forall account: nat
      ensures ChecksOf(h, account) <= RightLogins(schedule, trace[0].tables, account, verify)
    {
      ChecksAreLogins(schedule, trace, run, account, verify);
    }
    forall j | 0 <= j < |h| && h[j].Entered?
      ensures exists n :: 0 <= n < |schedule| && RightLogin(schedule[n], trace[0].tables, h[j].account, verify)
    {
      var k: nat, m: nat :| Chain(h, j, k, m);
      SomeCheck(h, m, h[j].account);
      SomeLogin(schedule, trace[0].tables, h[j].account, verify);
    }
  }
}
