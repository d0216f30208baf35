/** How far the automatic backup can lag behind the game. */
module Autosave {
  import opened Wrappers
  import opened Servers

  // Action i ends in an automatic backup: it is a tick after which one is due.
  ghost predicate SavesAt(cfg: Config, r: Run, i: nat) {
    && i < |r.actions| && i < |r.states| && r.actions[i].Tick? && Legal(cfg, r.states[i], r.actions[i])
    && SaveDue(Advanced(cfg, r, i))
  }

  // The server as the tick leaves it just before the backup test.
  ghost function Advanced(cfg: Config, r: Run, i: nat): ServerState
    requires i < |r.actions| && i < |r.states| && r.actions[i].Tick? && Legal(cfg, r.states[i], r.actions[i])
  {
    var a := r.actions[i];
    Advance(cfg, r.states[i], a.dt, a.ts, a.dropped)
  }

  // The game time at which the last automatic backup of the process was taken, up to state n; 0 if
  // there was none. Game time begins anew in every process.
  ghost function LastSave(cfg: Config, r: Run, n: nat): nat
    requires n < |r.states| && n <= |r.actions|
  {
    if n == 0 || r.actions[n - 1].Restart? then 0
    else if SavesAt(cfg, r, n - 1) then r.states[n].serverTime
    else LastSave(cfg, r, n - 1)
  }

  ghost predicate OnSchedule(cfg: Config, st: ServerState, last: nat) {
    last <= st.serverTime < st.backupTime && st.backupTime == last + cfg.savePeriod
  }

  lemma IdleTime(cfg: Config, st: ServerState, a: Action)
    requires Legal(cfg, st, a) && !a.Tick? && !a.Restart?
    ensures Step(cfg, st, a).serverTime == st.serverTime && Step(cfg, st, a).backupTime == st.backupTime
  {
  }

  lemma TickTimes(cfg: Config, st: ServerState, a: Action)
    requires Legal(cfg, st, a) && a.Tick?
    ensures var r, due := Step(cfg, st, a), SaveDue(Advance(cfg, st, a.dt, a.ts, a.dropped));
            && r.serverTime == st.serverTime + a.dt
            && (due <==> st.backupTime > 0 && st.serverTime + a.dt >= st.backupTime)
            && r.backupTime == (if due then r.serverTime + cfg.savePeriod else st.backupTime)
            && (due && cfg.hasStateFile ==> r.disk == Some(a.saved) && IsBackup(r, a.saved))
            && (!due || !cfg.hasStateFile ==> r.disk == st.disk)
  {
  }

  lemma RestartTimes(cfg: Config, st: ServerState, a: Action)
    requires Legal(cfg, st, a) && a.Restart?
    ensures Step(cfg, st, a).serverTime == 0 && Step(cfg, st, a).backupTime == cfg.savePeriod
  {
  }

  // What an action other than a restart leaves on disk: the old data, or a backup of the new state.
  lemma StepDisk(cfg: Config, st: ServerState, a: Action)
    requires Legal(cfg, st, a) && !a.Restart?
    ensures var r := Step(cfg, st, a); r.disk == st.disk || (r.disk.Some? && IsBackup(r, r.disk.value))
  {
    hide Advance, LegalSessions, LegalDrop, WithDogAt, FindSession, SteeredIn;
    if a.Tick? {
      TickTimes(cfg, st, a);
    }
  }

  lemma NotPastEnd(cfg: Config, r: Run, n: nat)
    requires IsRun(cfg, r) && n < |r.states|
    ensures n <= |r.actions|
  {
  }

  // No restart between states m and n.
  ghost predicate OneProcess(r: Run, m: nat, n: nat) {
    forall i: nat :: m <= i < n && i < |r.actions| ==> !r.actions[i].Restart?
  }

  // In every state of a run with a positive period: the next backup is due exactly
  // one period after the last one and has not been missed.
  lemma {:induction false} RunOnSchedule(cfg: Config, r: Run, n: nat)
    requires cfg.savePeriod > 0 && IsRun(cfg, r) && r.states[0] == Fresh(cfg) && n < |r.states|
    ensures n <= |r.actions| && OnSchedule(cfg, r.states[n], LastSave(cfg, r, n))
  {
    hide Legal, Step, IsRun, Advance, SaveDue;
    NotPastEnd(cfg, r, n);
    if n > 0 {
      RunOnSchedule(cfg, r, n - 1);
      RunStep(cfg, r, n - 1);
      if r.actions[n - 1].Tick? {
        TickTimes(cfg, r.states[n - 1], r.actions[n - 1]);
      } else if r.actions[n - 1].Restart? {
        RestartTimes(cfg, r.states[n - 1], r.actions[n - 1]);
      } else {
        IdleTime(cfg, r.states[n - 1], r.actions[n - 1]);
      }
    }
  }

  // The game time since the last automatic backup, or since the process began, is less than the period.
  lemma LagBelowPeriod(cfg: Config, r: Run, n: nat)
    requires cfg.savePeriod > 0 && IsRun(cfg, r) && r.states[0] == Fresh(cfg) && n < |r.states|
    ensures n <= |r.actions| && 0 <= r.states[n].serverTime - LastSave(cfg, r, n) < cfg.savePeriod
  {
    hide Legal, Step, IsRun;
    RunOnSchedule(cfg, r, n);
  }

  // With a state file, an automatic backup leaves the state it was taken from on disk.
  lemma BackupIsOnDisk(cfg: Config, r: Run, i: nat)
    requires IsRun(cfg, r) && cfg.hasStateFile && SavesAt(cfg, r, i)
    ensures i + 1 < |r.states| && r.states[i + 1].disk.Some? && IsBackup(r.states[i + 1], r.states[i + 1].disk.value)
  {
    hide Legal, Step, Advance, SaveDue;
    RunStep(cfg, r, i);
    TickTimes(cfg, r.states[i], r.actions[i]);
  }

  // ---------- What is on disk ----------

  // The process of state n has written the state file: by itself or in an explicit save.
  ghost predicate HasWritten(cfg: Config, r: Run, n: nat)
    requires n <= |r.actions|
  {
    && n > 0 && !r.actions[n - 1].Restart?
    && (SavesAt(cfg, r, n - 1) || r.actions[n - 1].Save? || HasWritten(cfg, r, n - 1))
  }

  lemma {:induction false} HasWrittenSince(cfg: Config, r: Run, i: nat, n: nat)
    requires SavesAt(cfg, r, i) && i < n <= |r.actions| && OneProcess(r, i, n)
    ensures HasWritten(cfg, r, n)
  {
    hide SavesAt;
    assert !r.actions[n - 1].Restart?;
    if n > i + 1 {
      HasWrittenSince(cfg, r, i, n - 1);
    }
  }

  // The process began with state j.
  ghost predicate Begins(r: Run, j: nat)
    requires j <= |r.actions|
  {
    j == 0 || r.actions[j - 1].Restart?
  }

  // State j of the process is on disk in state n; or the process began with it, has written nothing, and
  // the disk is as it found it.
  ghost predicate Covers(cfg: Config, r: Run, j: nat, n: nat)
    requires n < |r.states| && n <= |r.actions|
  {
    && j <= n && OneProcess(r, j, n)
    && if HasWritten(cfg, r, n) then
         r.states[n].disk.Some? && IsBackup(r.states[j], r.states[n].disk.value)
       else Begins(r, j) && r.states[n].disk == r.states[j].disk
  }

  lemma SaveDisk(cfg: Config, st: ServerState, a: Action)
    requires Legal(cfg, st, a) && !a.Tick? && !a.Restart?
    ensures var next := Step(cfg, st, a);
            if a.Save? && cfg.hasStateFile then next.disk.Some? && IsBackup(next, next.disk.value)
            else next.disk == st.disk
  {
    hide WithDogAt, FindSession, SteeredIn, IsSessionBackup;
  }

  lemma CoversNow(cfg: Config, r: Run, n: nat)
    requires n < |r.states| && n <= |r.actions| && HasWritten(cfg, r, n)
    requires r.states[n].disk.Some? && IsBackup(r.states[n], r.states[n].disk.value)
    ensures Covers(cfg, r, n, n)
  {
  }

  lemma CoversStill(cfg: Config, r: Run, j: nat, n: nat)
    requires 0 < n < |r.states| && n <= |r.actions| && Covers(cfg, r, j, n - 1) && !r.actions[n - 1].Restart?
    requires HasWritten(cfg, r, n) == HasWritten(cfg, r, n - 1) && r.states[n].disk == r.states[n - 1].disk
    ensures Covers(cfg, r, j, n)
  {
    hide IsBackup, HasWritten;
  }

  lemma WritesOrNot(cfg: Config, r: Run, n: nat)
    requires 0 < n <= |r.actions| && !r.actions[n - 1].Restart?
    ensures SavesAt(cfg, r, n - 1) || r.actions[n - 1].Save? ==> HasWritten(cfg, r, n)
    ensures !SavesAt(cfg, r, n - 1) && !r.actions[n - 1].Save? ==> HasWritten(cfg, r, n) == HasWritten(cfg, r, n - 1)
  {
    hide SavesAt;
  }

  lemma CoversTick(cfg: Config, r: Run, n: nat, i: nat) returns (j: nat)
    requires cfg.savePeriod > 0 && cfg.hasStateFile && IsRun(cfg, r) && r.states[0] == Fresh(cfg)
    requires 0 < n < |r.states| && n <= |r.actions| && r.actions[n - 1].Tick?
    requires Covers(cfg, r, i, n - 1) && LastSave(cfg, r, n - 1) <= r.states[i].serverTime
    ensures Covers(cfg, r, j, n) && LastSave(cfg, r, n) <= r.states[j].serverTime
  {
    hide Legal, Step, IsRun, Advance, SaveDue, HasWritten, IsBackup;
    RunStep(cfg, r, n - 1);
    WritesOrNot(cfg, r, n);
    TickTimes(cfg, r.states[n - 1], r.actions[n - 1]);
    if SavesAt(cfg, r, n - 1) {
      j := n;
      CoversNow(cfg, r, n);
    } else {
      j := i;
      CoversStill(cfg, r, j, n);
    }
  }

  lemma CoversIdle(cfg: Config, r: Run, n: nat, i: nat) returns (j: nat)
    requires cfg.savePeriod > 0 && cfg.hasStateFile && IsRun(cfg, r) && r.states[0] == Fresh(cfg)
    requires 0 < n < |r.states| && n <= |r.actions| && !r.actions[n - 1].Tick? && !r.actions[n - 1].Restart?
    requires Covers(cfg, r, i, n - 1) && LastSave(cfg, r, n - 1) <= r.states[i].serverTime
    ensures Covers(cfg, r, j, n) && LastSave(cfg, r, n) <= r.states[j].serverTime
  {
    hide Legal, Step, IsRun, Advance, SaveDue, HasWritten, IsBackup;
    RunStep(cfg, r, n - 1);
    WritesOrNot(cfg, r, n);
    SaveDisk(cfg, r.states[n - 1], r.actions[n - 1]);
    IdleTime(cfg, r.states[n - 1], r.actions[n - 1]);
    RunOnSchedule(cfg, r, n - 1);
    if r.actions[n - 1].Save? {
      j := n;
      CoversNow(cfg, r, n);
    } else {
      j := i;
      CoversStill(cfg, r, j, n);
    }
  }

  // With a state file and a positive period, in every state of every run: once the process has written
  // anything, the disk holds a backup of a state of it that is less than a period of game time old; before,
  // the process itself is younger than that, and the disk is as it found it.
  lemma {:induction false} DiskIsRecent(cfg: Config, r: Run, n: nat) returns (j: nat)
    requires cfg.savePeriod > 0 && cfg.hasStateFile && IsRun(cfg, r) && r.states[0] == Fresh(cfg) && n < |r.states|
    ensures n <= |r.actions| && Covers(cfg, r, j, n) && LastSave(cfg, r, n) <= r.states[j].serverTime
    ensures r.states[n].serverTime - r.states[j].serverTime < cfg.savePeriod
  {
    hide Legal, Step, IsRun, HasWritten, IsBackup, SavesAt;
    RunOnSchedule(cfg, r, n);
    if n == 0 {
      j := 0;
      NothingWritten(cfg, r);
    } else if r.actions[n - 1].Restart? {
      RunStep(cfg, r, n - 1);
      j := n;
      NothingWrittenYet(cfg, r, n);
    } else {
      j := DiskIsRecent(cfg, r, n - 1);
      if r.actions[n - 1].Tick? {
        j := CoversTick(cfg, r, n, j);
      } else {
        j := CoversIdle(cfg, r, n, j);
      }
    }
  }

  // Once a process has backed up by itself, the disk never falls a period behind it.
  lemma BackupIsRecent(cfg: Config, r: Run, i: nat, n: nat) returns (j: nat)
    requires cfg.savePeriod > 0 && cfg.hasStateFile && IsRun(cfg, r) && r.states[0] == Fresh(cfg) && n < |r.states|
    requires SavesAt(cfg, r, i) && i < n && OneProcess(r, i, n)
    ensures j <= n && OneProcess(r, j, n) && r.states[n].serverTime - r.states[j].serverTime < cfg.savePeriod
    ensures r.states[n].disk.Some? && IsBackup(r.states[j], r.states[n].disk.value)
  {
    hide Legal, Step, IsRun, HasWritten, IsBackup, SavesAt;
    j := DiskIsRecent(cfg, r, n);
    HasWrittenSince(cfg, r, i, n);
  }

  lemma NothingWritten(cfg: Config, r: Run)
    ensures !HasWritten(cfg, r, 0)
  {
  }

  lemma NothingWrittenYet(cfg: Config, r: Run, n: nat)
    requires 0 < n <= |r.actions| && r.actions[n - 1].Restart?
    ensures !HasWritten(cfg, r, n)
  {
  }

  lemma {:induction false} TimeNeverFalls(cfg: Config, r: Run, m: nat, n: nat)
    requires IsRun(cfg, r) && OneProcess(r, m, n) && m <= n < |r.states|
    ensures r.states[m].serverTime <= r.states[n].serverTime
  {
    hide Legal, Step, IsRun, Advance, SaveDue;
    if m < n {
      TimeNeverFalls(cfg, r, m, n - 1);
      RunStep(cfg, r, n - 1);
      assert !r.actions[n - 1].Restart?;
      if r.actions[n - 1].Tick? {
        TickTimes(cfg, r.states[n - 1], r.actions[n - 1]);
      } else {
        IdleTime(cfg, r.states[n - 1], r.actions[n - 1]);
      }
    }
  }

  lemma {:induction false} LastSaveAfter(cfg: Config, r: Run, i: nat, n: nat)
    requires cfg.savePeriod > 0 && IsRun(cfg, r) && r.states[0] == Fresh(cfg)
    requires SavesAt(cfg, r, i) && i < n < |r.states| && OneProcess(r, i, n)
    ensures n <= |r.actions| && LastSave(cfg, r, n) >= r.states[i + 1].serverTime
  {
    hide Legal, Step, IsRun, SavesAt;
    NotPastEnd(cfg, r, n);
    if n > i + 1 {
      LastSaveAfter(cfg, r, i, n - 1);
      TimeNeverFalls(cfg, r, i + 1, n);
    }
  }

  // Two automatic backups of one process are at least a period of game time apart.
  lemma BackupsApart(cfg: Config, r: Run, i: nat, j: nat)
    requires cfg.savePeriod > 0 && IsRun(cfg, r) && r.states[0] == Fresh(cfg)
    requires SavesAt(cfg, r, i) && SavesAt(cfg, r, j) && i < j && OneProcess(r, i, j)
    ensures j + 1 < |r.states| && r.states[j + 1].serverTime >= r.states[i + 1].serverTime + cfg.savePeriod
  {
    hide Legal, Step, Advance;
    LastSaveAfter(cfg, r, i, j);
    RunOnSchedule(cfg, r, j);
    RunStep(cfg, r, j);
    TickTimes(cfg, r.states[j], r.actions[j]);
  }

  // With period 0 the server never saves by itself.
  lemma {:induction false} ZeroPeriodNeverSaves(cfg: Config, r: Run, n: nat)
    requires cfg.savePeriod == 0 && IsRun(cfg, r) && r.states[0] == Fresh(cfg) && n < |r.states|
    ensures r.states[n].backupTime == 0 && !SavesAt(cfg, r, n)
  {
    hide Legal, Step, Advance, IsRun;
    if n > 0 {
      ZeroPeriodNeverSaves(cfg, r, n - 1);
      RunStep(cfg, r, n - 1);
      if r.actions[n - 1].Tick? {
        TickTimes(cfg, r.states[n - 1], r.actions[n - 1]);
      } else if r.actions[n - 1].Restart? {
        RestartTimes(cfg, r.states[n - 1], r.actions[n - 1]);
      } else {
        IdleTime(cfg, r.states[n - 1], r.actions[n - 1]);
      }
    }
    if SavesAt(cfg, r, n) {
      TickTimes(cfg, r.states[n], r.actions[n]);
    }
  }
}
