/** What the loot generator's waiting time measures, over whole runs with restarts. */
module LootWaiting {
  import opened Sessions
  import opened Servers
  import opened Retirement
  import opened DiskHistory

  ghost predicate Runs(r: Run, i: nat, k: nat) { i < |r.states| && k < |r.states[i].sessions| }

  // Action i ends the wait of session k: it creates the session, or is a tick in which it draws something,
  // or the server restarts.
  ghost predicate EndsWait(r: Run, i: nat, k: nat)
    requires i < |r.actions|
  {
    || !Runs(r, i, k)
    || r.actions[i].Restart?
    || (r.actions[i].Tick? && k < |r.actions[i].ts| && |r.actions[i].ts[k].drawn| > 0)
  }

  // Session k has been waiting for something to be drawn since action m - 1.
  ghost predicate WaitsSince(r: Run, m: nat, n: nat, k: nat)
    requires n <= |r.actions|
  {
    0 < m <= n && EndsWait(r, m - 1, k) && forall i: nat :: m <= i < n ==> !EndsWait(r, i, k)
  }

  // Joins, steering and saves leave the generators alone; a new session has a new one.
  lemma QuietlyWaiting(cfg: Config, st: ServerState, a: Action, k: nat)
    requires Legal(cfg, st, a) && !a.Tick? && !a.Restart? && k < |Step(cfg, st, a).sessions|
    ensures Step(cfg, st, a).sessions[k].waiting == if k < |st.sessions| then st.sessions[k].waiting else 0
  {
  }

  lemma TickWaiting(cfg: Config, st: ServerState, a: Action, k: nat)
    requires Legal(cfg, st, a) && a.Tick? && k < |Step(cfg, st, a).sessions|
    ensures k < |st.sessions| && k < |a.ts|
    ensures Step(cfg, st, a).sessions[k].waiting == if |a.ts[k].drawn| > 0 then 0 else st.sessions[k].waiting + a.dt
  {
    TickWorlds(cfg, st, a, k);
    TickStep(cfg, st, a, k);
    TickFrame(st.sessions[k], a.dt, a.ts[k]);
  }

  lemma RestartWaiting(cfg: Config, r: Run, n: nat, k: nat)
    requires MapsKeyed(cfg) && IsRun(cfg, r) && r.states[0] == Fresh(cfg) && n < |r.actions|
    requires r.actions[n].Restart? && k < |r.states[n + 1].sessions|
    ensures r.states[n + 1].sessions[k].waiting == 0
  {
    hide Legal, Step, IsRun, MapsKeyed, IsBackup, OpeningLedger;
    var j, i := RestoredFrom(cfg, r, n, k);
  }

  // In every state of every run the waiting time of a session's generator is the game time since the last
  // tick in which something was drawn for the session, or since the session was created or restored.
  lemma {:induction false} RunWaiting(cfg: Config, r: Run, m: nat, n: nat, k: nat)
    requires MapsKeyed(cfg) && IsRun(cfg, r) && r.states[0] == Fresh(cfg)
    requires n < |r.states| && k < |r.states[n].sessions| && WaitsSince(r, m, n, k)
    ensures r.states[n].sessions[k].waiting == TickTime(r, m, n)
  {
    hide Legal, Step, IsRun, MapsKeyed;
    RunStep(cfg, r, n - 1);
    var st, a := r.states[n - 1], r.actions[n - 1];
    if m < n {
      assert !EndsWait(r, n - 1, k);
      RunWaiting(cfg, r, m, n - 1, k);
    }
    if a.Restart? {
      RestartWaiting(cfg, r, n - 1, k);
    } else if a.Tick? {
      TickWaiting(cfg, st, a, k);
    } else {
      QuietlyWaiting(cfg, st, a, k);
    }
  }

  // Every session has such a beginning of its wait.
  lemma {:induction false} WaitBegins(cfg: Config, r: Run, n: nat, k: nat) returns (m: nat)
    requires IsRun(cfg, r) && r.states[0] == Fresh(cfg) && n < |r.states| && k < |r.states[n].sessions|
    ensures WaitsSince(r, m, n, k)
  {
    if EndsWait(r, n - 1, k) {
      m := n;
    } else {
      m := WaitBegins(cfg, r, n - 1, k);
    }
  }
}
