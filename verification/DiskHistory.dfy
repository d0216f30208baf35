/** What is on disk over whole runs, and which session of the past each restored one is. */
module DiskHistory {
  import opened Roads
  import opened Dogs
  import opened Sessions
  import opened Servers
  import opened Agreement
  import opened Autosave
  import opened SaveRestore
  import opened AfterRestart
  import Custody
  import Sums

  // ---------- Where the data on disk comes from ----------

  // The data was saved from one of the states up to n.
  ghost predicate BackedUp(r: Run, n: nat, saved: seq<SaveSession>) {
    exists j: nat :: j <= n && j < |r.states| && IsBackup(r.states[j], saved)
  }

  lemma BackedUpAt(r: Run, n: nat, j: nat, saved: seq<SaveSession>)
    requires j <= n && j < |r.states| && IsBackup(r.states[j], saved)
    ensures BackedUp(r, n, saved)
  {
  }

  lemma BackedUpLater(r: Run, n: nat, saved: seq<SaveSession>)
    requires n > 0 && BackedUp(r, n - 1, saved)
    ensures BackedUp(r, n, saved)
  {
    hide IsBackup;
  }

  lemma RestartDisk(cfg: Config, st: ServerState)
    requires Legal(cfg, st, Restart)
    ensures Step(cfg, st, Restart).disk == st.disk
  {
  }

  lemma {:induction false} RunDisk(cfg: Config, r: Run, n: nat)
    requires IsRun(cfg, r) && r.states[0] == Fresh(cfg) && n < |r.states|
    ensures r.states[n].disk.Some? ==> BackedUp(r, n, r.states[n].disk.value)
  {
    hide Legal, Step, IsRun, BackedUp, IsBackup;
    if n > 0 {
      RunDisk(cfg, r, n - 1);
      RunStep(cfg, r, n - 1);
      var st, a := r.states[n - 1], r.actions[n - 1];
      if a.Restart? {
        RestartDisk(cfg, st);
      } else {
        StepDisk(cfg, st, a);
      }
      var disk := r.states[n].disk;
      if disk == st.disk && disk.Some? {
        BackedUpLater(r, n, disk.value);
      } else if disk.Some? {
        BackedUpAt(r, n, n, disk.value);
      }
    }
  }

  // ---------- One session per configured map, over every run ----------

  ghost predicate OnMaps(cfg: Config, st: ServerState) { Configured(cfg, st) && OneSessionPerMap(st.sessions) }

  lemma JoinOnMaps(cfg: Config, st: ServerState, name: string, mapId: string, spawn: Cell, token: string)
    requires MapsKeyed(cfg) && OnMaps(cfg, st)
    ensures OnMaps(cfg, Joined(cfg, st, name, mapId, spawn, token))
  {
    if mapId in cfg.maps {
      var m := cfg.maps[mapId];
      var d := NewDog(spawn.ToVec(), m.speed, name, Capacity(m));
      JoinedMaps(st, Joined(cfg, st, name, mapId, spawn, token), m, st.nextPlayer, d);
    }
  }

  lemma TickOnMaps(cfg: Config, st: ServerState, a: Action)
    requires OnMaps(cfg, st) && Legal(cfg, st, a) && a.Tick?
    ensures OnMaps(cfg, Step(cfg, st, a))
  {
    hide Ticked, LegalTick, LegalDraw, Step, Legal;
    var r := Step(cfg, st, a);
    forall k: nat | k < |r.sessions| ensures k < |st.sessions| && r.sessions[k].world == st.sessions[k].world {
      TickWorlds(cfg, st, a, k);
    }
  }

  lemma TickWorlds(cfg: Config, st: ServerState, a: Action, k: nat)
    requires Legal(cfg, st, a) && a.Tick? && k < |Step(cfg, st, a).sessions|
    ensures k < |st.sessions| == |Step(cfg, st, a).sessions| && k < |a.ts|
    ensures LegalRoutes(st.sessions[k], a.ts[k].routes)
    ensures Step(cfg, st, a).sessions[k].world == st.sessions[k].world
  {
    TickStep(cfg, st, a, k);
    TickFrame(st.sessions[k], a.dt, a.ts[k]);
  }

  lemma StepOnMaps(cfg: Config, st: ServerState, a: Action)
    requires MapsKeyed(cfg) && OnMaps(cfg, st) && Legal(cfg, st, a) && !a.Restart?
    ensures OnMaps(cfg, Step(cfg, st, a))
  {
    hide Joined, WithDogAt;
    match a
    case Join(name, mapId, spawn, token) => JoinOnMaps(cfg, st, name, mapId, spawn, token);
    case Tick(_, _, _, _) => TickOnMaps(cfg, st, a);
    case Steer(_, _) =>
    case Save(_) =>
  }

  // What a restart makes of the sessions, when the data on disk was saved from state b.
  lemma RestartSessions(cfg: Config, st: ServerState, b: ServerState)
    requires Legal(cfg, st, Restart) && cfg.hasStateFile && st.disk.Some?
    requires OnMaps(cfg, b) && IsBackup(b, st.disk.value)
    ensures var ss, kept := Step(cfg, st, Restart).sessions, KeptSessions(b.sessions, |b.sessions|);
            |ss| == |kept| && forall k :: 0 <= k < |ss| ==> ss[k] == kept[k].(ledger := OpeningLedger(kept[k]))
  {
    hide Configured, OneSessionPerMap, IsBackup, HomedAll, SeatedAll, TokenedAll, KeptSessions, OpeningLedger,
        Restorable;
    SessionsBack(cfg, b, st.disk.value, |st.disk.value|);
    BackupLength(b, st.disk.value);
  }

  lemma BackupLength(b: ServerState, saved: seq<SaveSession>)
    requires IsBackup(b, saved)
    ensures |saved| == |b.sessions|
  {
  }

  lemma KeptOnMaps(cfg: Config, b: ServerState, r: ServerState)
    requires OnMaps(cfg, b)
    requires |r.sessions| == |KeptSessions(b.sessions, |b.sessions|)|
    requires forall k :: 0 <= k < |r.sessions| ==>
        r.sessions[k].world == KeptSessions(b.sessions, |b.sessions|)[k].world
    ensures OnMaps(cfg, r)
  {
    hide KeptSessions;
    KeptMapsDiffer(b, |b.sessions|, b.(sessions := KeptSessions(b.sessions, |b.sessions|)));
    forall k: nat | k < |r.sessions|
      ensures r.sessions[k].world.id in cfg.maps && r.sessions[k].world == cfg.maps[r.sessions[k].world.id]
    {
      var i := KeptFrom(b.sessions, |b.sessions|, k);
    }
  }

  lemma EmptyRestart(cfg: Config, st: ServerState)
    requires Legal(cfg, st, Restart) && !(cfg.hasStateFile && st.disk.Some?)
    ensures Step(cfg, st, Restart).sessions == []
  {
  }

  // In every state of every run there is one session per map, and each runs on a configured map.
  lemma {:induction false} RunOnMaps(cfg: Config, r: Run, n: nat)
    requires MapsKeyed(cfg) && IsRun(cfg, r) && r.states[0] == Fresh(cfg) && n < |r.states|
    ensures OnMaps(cfg, r.states[n])
    decreases n
  {
    hide Legal, Step, IsRun, MapsKeyed, IsBackup, KeptSessions, Configured, OneSessionPerMap, OpeningLedger;
    if n == 0 {
      NothingOnMaps(cfg, r.states[0]);
    } else {
      RunStep(cfg, r, n - 1);
      var st, a := r.states[n - 1], r.actions[n - 1];
      if !a.Restart? {
        RunOnMaps(cfg, r, n - 1);
        StepOnMaps(cfg, st, a);
      } else if cfg.hasStateFile && st.disk.Some? {
        RunDisk(cfg, r, n - 1);
        var j: nat :| j <= n - 1 && j < |r.states| && IsBackup(r.states[j], st.disk.value);
        RunOnMaps(cfg, r, j);
        RestartSessions(cfg, st, r.states[j]);
        KeptOnMaps(cfg, r.states[j], r.states[n]);
      } else {
        EmptyRestart(cfg, st);
        NothingOnMaps(cfg, r.states[n]);
      }
    }
  }

  lemma NothingOnMaps(cfg: Config, st: ServerState)
    requires st.sessions == []
    ensures OnMaps(cfg, st)
  {
  }

  // ---------- What comes back ----------

  // t is what a restart makes of s: the dogs but for their timers and all that lies on the ground; the
  // books are opened with what is there.
  ghost predicate BackFrom(s: SessionState, t: SessionState) { t == Kept(s).(ledger := OpeningLedger(Kept(s))) }

  // Every session restored by action n is one that was saved from state j.
  lemma RestoredFrom(cfg: Config, r: Run, n: nat, k: nat) returns (j: nat, i: nat)
    requires MapsKeyed(cfg) && IsRun(cfg, r) && r.states[0] == Fresh(cfg) && n < |r.actions|
    requires r.actions[n].Restart? && k < |r.states[n + 1].sessions|
    ensures cfg.hasStateFile && r.states[n].disk.Some? && j <= n && IsBackup(r.states[j], r.states[n].disk.value)
    ensures i < |r.states[j].sessions| && BackFrom(r.states[j].sessions[i], r.states[n + 1].sessions[k])
  {
    hide Legal, Step, IsRun, MapsKeyed, IsBackup, KeptSessions, Configured, OneSessionPerMap, OpeningLedger, Kept;
    StepsOn(cfg, r, n);
    RunStep(cfg, r, n);
    var st := r.states[n];
    if !(cfg.hasStateFile && st.disk.Some?) {
      EmptyRestart(cfg, st);
    }
    RunDisk(cfg, r, n);
    j :| j <= n && j < |r.states| && IsBackup(r.states[j], st.disk.value);
    RunOnMaps(cfg, r, j);
    RestartSessions(cfg, st, r.states[j]);
    i := KeptFrom(r.states[j].sessions, |r.states[j].sessions|, k);
  }

  // Every saved session that has dogs comes back, and of a session without dogs nothing does.
  lemma RestoredTo(cfg: Config, r: Run, n: nat, j: nat, i: nat) returns (k: nat)
    requires MapsKeyed(cfg) && IsRun(cfg, r) && r.states[0] == Fresh(cfg) && n < |r.actions|
    requires r.actions[n].Restart? && cfg.hasStateFile && r.states[n].disk.Some?
    requires j <= n && IsBackup(r.states[j], r.states[n].disk.value) && i < |r.states[j].sessions|
    ensures r.states[j].sessions[i].dogs != map[] ==>
        k < |r.states[n + 1].sessions| && BackFrom(r.states[j].sessions[i], r.states[n + 1].sessions[k])
    ensures r.states[j].sessions[i].dogs == map[] ==>
        NoneOn(r.states[n + 1].sessions, r.states[j].sessions[i].world.id)
  {
    hide Legal, Step, IsRun, MapsKeyed, IsBackup, KeptSessions, Configured, OpeningLedger, Kept;
    StepsOn(cfg, r, n);
    RunStep(cfg, r, n);
    RunOnMaps(cfg, r, j);
    RestartSessions(cfg, r.states[n], r.states[j]);
    var ss := r.states[j].sessions;
    k := 0;
    if ss[i].dogs != map[] {
      k := KeptTo(ss, |ss|, i);
    } else {
      var after := r.states[n + 1].sessions;
      forall m: nat | m < |after| ensures after[m].world.id != ss[i].world.id {
        var from := KeptWithDogs(ss, |ss|, m);
      }
    }
  }

  lemma {:induction false} KeptWithDogs(sessions: seq<SessionState>, n: nat, k: nat) returns (i: nat)
    requires n <= |sessions| && k < |KeptSessions(sessions, n)|
    ensures i < n && sessions[i].dogs != map[] && KeptSessions(sessions, n)[k].world == sessions[i].world
  {
    if k < |KeptSessions(sessions, n - 1)| {
      i := KeptWithDogs(sessions, n - 1, k);
    } else {
      i := n - 1;
    }
  }

  // Every dog comes back as it was, but for its timers, and all that lay on the ground; the id counter of
  // lost things restarts at their number, and the wait for the next one begins. The books of a restored
  // session open with exactly what lay on the ground, what was in the bags and what the dogs had scored in
  // the saved one.
  lemma OpensWithWhatWasSaved(s: SessionState, t: SessionState)
    requires BackFrom(s, t)
    ensures t.world == s.world && t.loots == s.loots && t.lootIdIncr == |s.loots| && t.waiting == 0
    ensures t.dogs.Keys == s.dogs.Keys
    ensures forall id: nat :: id in s.dogs ==> t.dogs[id] == s.dogs[id].(lifeTime := 0, stopTime := 0)
    ensures Custody.Bags(t.dogs) == Custody.Bags(s.dogs) && Custody.Scores(t.dogs) == Custody.Scores(s.dogs)
    ensures t.ledger.placed == Sums.Union(Custody.Ground(s.loots)) + Sums.Union(Custody.Bags(s.dogs))
    ensures t.ledger.opening == Sums.Sum(Custody.Scores(s.dogs))
    ensures t.ledger.delivered == multiset{} && t.ledger.lost == multiset{} && t.ledger.recorded == 0
  {
    Custody.SameBags(s.dogs, Survivors(s.dogs));
    Custody.SameScores(s.dogs, Survivors(s.dogs));
  }
}
