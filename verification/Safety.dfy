/** Whole-run movement safety, over joins, steering, ticks, saves and restarts. */
module Safety {
  import opened Wrappers
  import opened Roads
  import opened Movement
  import opened Dogs
  import opened Sessions
  import opened Arrival
  import opened Servers

  // A session runs on its configured map, keeps its dogs on the roads with an
  // axis-parallel speed, and holds only what has a value, in bags that are not overfull.
  ghost predicate SafeSession(cfg: Config, s: SessionState) {
    && s.world.id in cfg.maps && s.world == cfg.maps[s.world.id]
    && (forall id: nat :: id in s.dogs ==> Safe(s.world.roads, s.dogs[id]))
    && Stocked(s)
  }

  ghost predicate SafeRepr(m: MapConfig, r: DogRepr) {
    Safe(m.roads, RestoredDog(r)) && BagOk(m, RestoredDog(r))
  }

  ghost predicate SafeSave(cfg: Config, data: SaveSession) {
    && data.mapId in cfg.maps
    && (forall r :: r in data.dogs ==> SafeRepr(cfg.maps[data.mapId], r))
    && (forall id: nat :: id in data.loots ==> KindOk(cfg.maps[data.mapId], data.loots[id].kind))
  }

  ghost predicate SafeDisk(cfg: Config, disk: Option<seq<SaveSession>>) {
    disk.Some? ==> forall i :: 0 <= i < |disk.value| ==> SafeSave(cfg, disk.value[i])
  }

  ghost predicate SafeServer(cfg: Config, st: ServerState) {
    && SafeSessions(cfg, st.sessions)
    && SafeDisk(cfg, st.disk)
  }

  // ---------- One session ----------

  lemma WithDogSafe(cfg: Config, s: SessionState, id: nat, d: DogState)
    requires SafeSession(cfg, s) && Safe(s.world.roads, d) && BagOk(s.world, d)
    ensures SafeSession(cfg, WithDog(s, id, d))
  {
  }

  lemma SteeredInSafe(cfg: Config, s: SessionState, id: nat, move: string)
    requires SafeSession(cfg, s)
    ensures SafeSession(cfg, SteeredIn(s, id, move))
  {
    if id in s.dogs {
      SteeredSafe(s.world.roads, s.dogs[id], move);
    }
  }

  lemma TickedDogSafe(cfg: Config, s: SessionState, dt: nat, c: TickChoice, id: nat)
    requires SafeSession(cfg, s) && LegalTick(s, cfg.retirement, dt, c) && id in Ticked(s, dt, c).dogs
    ensures Safe(s.world.roads, Ticked(s, dt, c).dogs[id])
  {
    TickedDog(s, cfg.retirement, dt, c, id);
    AdvancedSafe(s.world.roads, id, s.dogs[id], dt, c.routes[id]);
  }

  lemma TickedSafe(cfg: Config, s: SessionState, dt: nat, c: TickChoice)
    requires GoodConfig(cfg) && SafeSession(cfg, s) && LegalTick(s, cfg.retirement, dt, c)
    ensures SafeSession(cfg, Ticked(s, dt, c)) && Ticked(s, dt, c).world == s.world
  {
    TickFrame(s, dt, c);
    TickStocked(s, cfg.retirement, dt, c);
    forall id: nat | id in Ticked(s, dt, c).dogs ensures Safe(s.world.roads, Ticked(s, dt, c).dogs[id]) {
      TickedDogSafe(cfg, s, dt, c, id);
    }
  }

  // ---------- One action ----------

  ghost predicate SafeSessions(cfg: Config, sessions: seq<SessionState>) {
    && (forall i :: 0 <= i < |sessions| ==> SafeSession(cfg, sessions[i]))
    && OneSessionPerMap(sessions)
  }

  lemma ReplacedSafe(cfg: Config, sessions: seq<SessionState>, i: nat, s: SessionState)
    requires SafeSessions(cfg, sessions) && i < |sessions| && SafeSession(cfg, s) && s.world == sessions[i].world
    ensures SafeSessions(cfg, sessions[i := s])
  {
  }

  lemma AppendedSafe(cfg: Config, sessions: seq<SessionState>, s: SessionState)
    requires SafeSessions(cfg, sessions) && SafeSession(cfg, s)
    requires forall i :: 0 <= i < |sessions| ==> sessions[i].world.id != s.world.id
    ensures SafeSessions(cfg, sessions + [s])
  {
  }

  lemma WithDogAtSafe(cfg: Config, sessions: seq<SessionState>, m: MapConfig, id: nat, d: DogState)
    requires SafeSessions(cfg, sessions) && m.id in cfg.maps && m == cfg.maps[m.id]
    requires Safe(m.roads, d) && BagOk(m, d)
    ensures SafeSessions(cfg, WithDogAt(sessions, m, id, d))
  {
    FindSessionIsFirst(sessions, m.id, |sessions|);
    match FindSession(sessions, m.id, |sessions|)
    case Some(i) =>
      WithDogSafe(cfg, sessions[i], id, d);
      ReplacedSafe(cfg, sessions, i, WithDog(sessions[i], id, d));
    case None =>
      WithDogSafe(cfg, NewSession(m), id, d);
      AppendedSafe(cfg, sessions, WithDog(NewSession(m), id, d));
  }

  lemma JoinedSafe(cfg: Config, st: ServerState, name: string, mapId: string, spawn: Cell, token: string)
    requires GoodConfig(cfg) && SafeServer(cfg, st) && LegalJoin(cfg, st, mapId, spawn, token)
    ensures SafeServer(cfg, Joined(cfg, st, name, mapId, spawn, token))
  {
    if mapId in cfg.maps {
      var m := cfg.maps[mapId];
      SpawnOnRoad(m, spawn, cfg.randomizeSpawn);
      WithDogAtSafe(cfg, st.sessions, m, st.nextPlayer, NewDog(spawn.ToVec(), m.speed, name, Capacity(m)));
    }
  }

  lemma SpawnOnRoad(m: MapConfig, spawn: Cell, randomize: bool)
    requires if randomize then SpawnPoint(m, spawn) else |m.roads| > 0 && spawn == m.roads[0].start
    ensures OnRoad(m.roads, spawn.ToVec())
  {
    if randomize {
      var i: nat :| i < |m.roads| && OnCentreline(m.roads[i], spawn.ToVec());
      GridPointOnRoad(m.roads, i, spawn);
    } else {
      GridPointOnRoad(m.roads, 0, spawn);
    }
  }

  lemma SteeringSafe(cfg: Config, st: ServerState, token: string, move: string)
    requires SafeServer(cfg, st)
    ensures SafeServer(cfg, Steering(st, token, move))
  {
    if token in st.tokens {
      var p := st.tokens[token];
      var r := FindSession(st.sessions, p.mapId, |st.sessions|);
      if r.Some? {
        SteeredInSafe(cfg, st.sessions[r.value], p.id, move);
        ReplacedSafe(cfg, st.sessions, r.value, SteeredIn(st.sessions[r.value], p.id, move));
      }
    }
  }

  lemma AdvanceSafe(cfg: Config, st: ServerState, dt: nat, ts: seq<TickChoice>, dropped: map<string, nat>)
    requires GoodConfig(cfg) && SafeServer(cfg, st) && LegalSessions(cfg, st, dt, ts)
    ensures SafeServer(cfg, Advance(cfg, st, dt, ts, dropped))
  {
    var r := Advance(cfg, st, dt, ts, dropped);
    forall i | 0 <= i < |r.sessions|
      ensures SafeSession(cfg, r.sessions[i]) && r.sessions[i].world == st.sessions[i].world
    {
      TickedSafe(cfg, st.sessions[i], dt, ts[i]);
    }
  }

  lemma SessionBackupSafe(cfg: Config, s: SessionState, tokens: map<string, Player>, data: SaveSession)
    requires SafeSession(cfg, s) && IsSessionBackup(s, tokens, data)
    ensures SafeSave(cfg, data)
  {
    forall r | r in data.dogs ensures SafeRepr(s.world, r) {
      var k :| 0 <= k < |data.dogs| && data.dogs[k] == r;
      assert Safe(s.world.roads, s.dogs[r.id]) && BagOk(s.world, s.dogs[r.id]);
    }
  }

  lemma SavedSafe(cfg: Config, st: ServerState, saved: seq<SaveSession>)
    requires SafeServer(cfg, st) && Writes(cfg, st, saved)
    ensures SafeServer(cfg, Saved(cfg, st, saved))
  {
    if cfg.hasStateFile {
      BackupSafe(cfg, st, saved);
    }
  }

  lemma BackupSafe(cfg: Config, st: ServerState, saved: seq<SaveSession>)
    requires SafeServer(cfg, st) && IsBackup(st, saved)
    ensures SafeDisk(cfg, Some(saved))
  {
    forall i | 0 <= i < |saved| ensures SafeSave(cfg, saved[i]) {
      SessionBackupSafe(cfg, st.sessions[i], st.tokens, saved[i]);
    }
  }

  lemma HomedSafe(cfg: Config, sessions: seq<SessionState>, m: MapConfig, data: SaveSession, r: DogRepr)
    requires SafeSessions(cfg, sessions) && m.id in cfg.maps && m == cfg.maps[m.id]
    requires SafeSave(cfg, data) && m == cfg.maps[data.mapId] && SafeRepr(m, r)
    ensures SafeSessions(cfg, Homed(sessions, m, data, r))
  {
    FindSessionIsFirst(sessions, m.id, |sessions|);
    match FindSession(sessions, m.id, |sessions|)
    case Some(i) =>
      WithDogSafe(cfg, sessions[i], r.id, RestoredDog(r));
      ReplacedSafe(cfg, sessions, i, WithDog(sessions[i], r.id, RestoredDog(r)));
    case None =>
      var s := WithDog(NewSession(m), r.id, RestoredDog(r));
      WithDogSafe(cfg, NewSession(m), r.id, RestoredDog(r));
      AppendedSafe(cfg, sessions, s.(loots := data.loots, lootIdIncr := |data.loots|));
  }

  lemma HomedDogsSafe(cfg: Config, sessions: seq<SessionState>, m: MapConfig, data: SaveSession, n: nat)
    requires SafeSessions(cfg, sessions) && m.id in cfg.maps && m == cfg.maps[m.id]
    requires SafeSave(cfg, data) && m == cfg.maps[data.mapId] && n <= |data.dogs|
    ensures SafeSessions(cfg, HomedDogs(sessions, m, data, n))
  {
    var f, inv := Homing(m, data), (ss: seq<SessionState>) => SafeSessions(cfg, ss);
    forall ss, r | inv(ss) && r in data.dogs ensures inv(f(ss, r)) {
      HomedSafe(cfg, ss, m, data, r);
    }
    FoldKeeps(f, inv, sessions, data.dogs, n);
  }

  lemma HomedSaveSafe(cfg: Config, sessions: seq<SessionState>, saved: seq<SaveSession>, n: nat)
    requires GoodConfig(cfg) && 0 < n <= |saved| && Restorable(cfg, saved) && SafeSave(cfg, saved[n - 1])
    requires SafeSessions(cfg, HomedAll(cfg, sessions, saved, n - 1))
    ensures SafeSessions(cfg, HomedAll(cfg, sessions, saved, n))
  {
    HomedDogsSafe(cfg, HomedAll(cfg, sessions, saved, n - 1), cfg.maps[saved[n - 1].mapId], saved[n - 1],
        |saved[n - 1].dogs|);
  }

  lemma SafeIsRestorable(cfg: Config, saved: seq<SaveSession>)
    requires SafeDisk(cfg, Some(saved))
    ensures Restorable(cfg, saved)
  {
  }

  lemma {:induction false} HomedAllSafe(cfg: Config, sessions: seq<SessionState>, saved: seq<SaveSession>, n: nat)
    requires GoodConfig(cfg) && SafeSessions(cfg, sessions) && SafeDisk(cfg, Some(saved)) && n <= |saved|
    ensures Restorable(cfg, saved) && SafeSessions(cfg, HomedAll(cfg, sessions, saved, n))
  {
    hide SafeSessions, SafeSave, Restorable, GoodConfig, HomedDogs;
    SafeIsRestorable(cfg, saved);
    if n > 0 {
      HomedAllSafe(cfg, sessions, saved, n - 1);
      HomedSaveSafe(cfg, sessions, saved, n);
    }
  }

  lemma LedgerSafe(cfg: Config, s: SessionState, l: Ledger)
    requires SafeSession(cfg, s)
    ensures SafeSession(cfg, s.(ledger := l))
  {
  }

  lemma OpenedSafe(cfg: Config, st: ServerState)
    requires SafeServer(cfg, st)
    ensures SafeServer(cfg, Opened(st))
  {
    var r := Opened(st);
    forall i | 0 <= i < |r.sessions|
      ensures SafeSession(cfg, r.sessions[i]) && r.sessions[i].world == st.sessions[i].world
    {
      LedgerSafe(cfg, st.sessions[i], OpeningLedger(st.sessions[i]));
    }
  }

  lemma FreshSafe(cfg: Config, st: ServerState)
    requires SafeDisk(cfg, st.disk)
    ensures SafeServer(cfg, Fresh(cfg).(records := st.records, disk := st.disk)) && SafeServer(cfg, Fresh(cfg))
  {
  }

  lemma RestoredSafe(cfg: Config, st: ServerState, saved: seq<SaveSession>)
    requires GoodConfig(cfg) && SafeServer(cfg, st) && SafeDisk(cfg, Some(saved))
    ensures Restorable(cfg, saved) && SafeServer(cfg, Restored(cfg, st, saved))
  {
    hide SafeSessions, SafeDisk, GoodConfig, Restorable;
    HomedAllSafe(cfg, st.sessions, saved, |saved|);
  }

  lemma WritesAnyTime(cfg: Config, st: ServerState, time: nat, saved: seq<SaveSession>)
    requires Writes(cfg, st, saved)
    ensures Writes(cfg, st.(backupTime := time), saved)
  {
  }

  lemma StepSafe(cfg: Config, st: ServerState, a: Action)
    requires GoodConfig(cfg) && SafeServer(cfg, st) && Legal(cfg, st, a)
    ensures SafeServer(cfg, Step(cfg, st, a))
  {
    hide SafeSessions, SafeDisk, Advance, Opened, Restored, LegalSessions, Writes, Joined, Steering, LegalJoin;
    match a
    case Join(name, mapId, spawn, token) => JoinedSafe(cfg, st, name, mapId, spawn, token);
    case Steer(token, move) => SteeringSafe(cfg, st, token, move);
    case Tick(dt, ts, dropped, saved) =>
      AdvanceSafe(cfg, st, dt, ts, dropped);
      var r := Advance(cfg, st, dt, ts, dropped);
      if SaveDue(r) {
        WritesAnyTime(cfg, r, r.serverTime + cfg.savePeriod, saved);
        SavedSafe(cfg, r.(backupTime := r.serverTime + cfg.savePeriod), saved);
      }
    case Save(saved) => SavedSafe(cfg, st, saved);
    case Restart =>
      var empty := Fresh(cfg).(records := st.records, disk := st.disk);
      FreshSafe(cfg, st);
      if cfg.hasStateFile && st.disk.Some? {
        RestoredSafe(cfg, empty, st.disk.value);
        OpenedSafe(cfg, Restored(cfg, empty, st.disk.value));
      }
  }

  // ---------- Whole runs ----------

  // In every reachable state every dog stands on a road of its map with at most one nonzero speed
  // component, over any run of joins, steering, ticks, saves and restarts.
  lemma {:induction false} RunSafe(cfg: Config, r: Run, n: nat)
    requires GoodConfig(cfg) && IsRun(cfg, r) && r.states[0] == Fresh(cfg) && n < |r.states|
    ensures SafeServer(cfg, r.states[n])
  {
    hide SafeServer, Legal, Step, IsRun, GoodConfig;
    if n == 0 {
      FreshSafe(cfg, r.states[0].(disk := None));
    } else {
      RunSafe(cfg, r, n - 1);
      RunStep(cfg, r, n - 1);
      StepSafe(cfg, r.states[n - 1], r.actions[n - 1]);
    }
  }

  // The way of a dog in a tick lies in one road's rectangle and ends no further than the point its speed
  // asks for. The dog takes part in collision detection exactly if it means to move, and then with this
  // way, blocked or not, and half its width. If it does not retire, it is at the end of it after the tick.
  ghost predicate SweepsSafely(s: SessionState, dt: nat, c: TickChoice, id: nat, after: SessionState)
    requires id in s.dogs
  {
    LegalRoutes(s, c.routes) &&
    var d, end := s.dogs[id], MovedIn(s, dt, c).dogs[id].coord;
    && (forall to :: HeadsFor(d, dt, to) ==>
          OnWay(d.coord, end, to) && ((exists g :: g in c.sweeps && g.id == id) <==> d.coord != to))
    && WayOnRoad(s.world.roads, d.coord, end)
    && (forall g :: g in c.sweeps && g.id == id ==> g.startPos == d.coord && g.endPos == end && g.width == 0.3)
    && (id in after.dogs ==> after.dogs[id].coord == end)
  }

  lemma TickSweepsSafely(cfg: Config, s: SessionState, dt: nat, c: TickChoice, id: nat)
    requires SafeSession(cfg, s) && LegalTick(s, cfg.retirement, dt, c) && id in s.dogs
    ensures SweepsSafely(s, dt, c, id, Ticked(s, dt, c))
  {
    hide LegalTick, Sweep, Advanced, Requested, HeadsFor, Ticked, Still, OnWay, WayOnRoad, OnRoad, AxisSpeed,
        MovedIn, Stocked;
    var d := s.dogs[id];
    TickedGround(s, cfg.retirement, dt, c);
    AdvancedSafe(s.world.roads, id, d, dt, c.routes[id]);
    TickedDog(s, cfg.retirement, dt, c, id);
    MovedDog(s, dt, c, id);
    HeadsForRequested(d, dt);
    OneDestination(d, dt, Requested(d, dt));
    SweepIsWay(s.world.roads, id, d, dt, c.routes[id], Requested(d, dt));
    SweptIff(s, cfg.retirement, dt, c, id);
  }

  // The dog's sweep is listed, and no other under its id.
  lemma SweptIff(s: SessionState, retirement: nat, dt: nat, c: TickChoice, id: nat)
    requires LegalTick(s, retirement, dt, c) && id in s.dogs && LegalRoutes(s, c.routes)
    ensures forall g :: g in c.sweeps && g.id == id ==>
        Sweep(s.world.roads, id, s.dogs[id], dt, c.routes[id]) == Some(g)
    ensures (exists g :: g in c.sweeps && g.id == id) <==> Sweep(s.world.roads, id, s.dogs[id], dt, c.routes[id]).Some?
  {
    hide Sweep, LegalRetirees, Enumerates;
    if Sweep(s.world.roads, id, s.dogs[id], dt, c.routes[id]).Some? {
      assert Swept(c.sweeps, id);
      var k :| 0 <= k < |c.sweeps| && c.sweeps[k].id == id;
      assert c.sweeps[k] in c.sweeps;
    }
  }

  lemma RunSweepsSafely(cfg: Config, r: Run, n: nat, k: nat, id: nat)
    requires GoodConfig(cfg) && IsRun(cfg, r) && r.states[0] == Fresh(cfg) && n < |r.actions| && r.actions[n].Tick?
    requires k < |r.states[n].sessions| && id in r.states[n].sessions[k].dogs
    ensures k < |r.actions[n].ts| && k < |r.states[n + 1].sessions|
    ensures SweepsSafely(r.states[n].sessions[k], r.actions[n].dt, r.actions[n].ts[k], id, r.states[n + 1].sessions[k])
  {
    RunSafe(cfg, r, n);
    StepOf(cfg, r, n);
    TickSweepsSafely(cfg, r.states[n].sessions[k], r.actions[n].dt, r.actions[n].ts[k], id);
  }

  lemma StepOf(cfg: Config, r: Run, n: nat)
    requires IsRun(cfg, r) && n < |r.actions| && r.actions[n].Tick?
    ensures var a := r.actions[n];
            && LegalSessions(cfg, r.states[n], a.dt, a.ts)
            && r.states[n + 1].sessions == Advance(cfg, r.states[n], a.dt, a.ts, a.dropped).sessions
  {
    RunStep(cfg, r, n);
  }
}
