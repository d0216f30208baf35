/** The whole server as a state machine: join, steer, tick, save and restart. */
module Servers {
  import opened Wrappers
  import opened Roads
  import opened Dogs
  import opened Sessions
  import opened Custody
  import Sums

  // Command-line arguments and the loaded game.
  datatype Config = Config(
    maps: map<string, MapConfig>, retirement: nat, savePeriod: nat, hasStateFile: bool, randomizeSpawn: bool)

  // The game lists its maps by their own ids.
  ghost predicate MapsKeyed(cfg: Config) { forall id :: id in cfg.maps ==> cfg.maps[id].id == id }

  ghost predicate GoodConfig(cfg: Config) {
    MapsKeyed(cfg) && forall id :: id in cfg.maps ==> WellFormed(cfg.maps[id])
  }

  // A player refers to the session of its map.
  datatype Player = Player(id: nat, mapId: string)

  // What survives of a dog in a saved state.
  datatype DogRepr = DogRepr(
    id: nat, name: string, coord: Vec, bagCapacity: nat, speed: Vec, defaultSpeed: real,
    direction: Direction, score: int, bagContent: seq<BagItem>)

  datatype SaveSession = SaveSession(
    dogs: seq<DogRepr>, loots: map<nat, Loot>, dogIdToToken: map<nat, string>, mapId: string)

  datatype ServerState = ServerState(
    sessions: seq<SessionState>, players: map<nat, Player>, nextPlayer: nat, tokens: map<string, Player>,
    serverTime: nat, backupTime: nat, records: seq<Record>, disk: Option<seq<SaveSession>>)

  function Fresh(cfg: Config): ServerState {
    ServerState([], map[], 0, map[], 0, cfg.savePeriod, [], None)
  }

  ghost predicate OneSessionPerMap(sessions: seq<SessionState>) {
    forall i, j :: 0 <= i < j < |sessions| ==> sessions[i].world.id != sessions[j].world.id
  }

  // The first of the first n sessions that runs on the map.
  function FindSession(sessions: seq<SessionState>, mapId: string, n: nat): (r: Option<nat>)
    requires n <= |sessions|
    ensures r.Some? ==> r.value < n
  {
    if n == 0 then None
    else
      var r := FindSession(sessions, mapId, n - 1);
      if r.Some? then r
      else if sessions[n - 1].world.id == mapId then Some(n - 1)
      else None
  }

  lemma {:induction false} FindSessionIsFirst(sessions: seq<SessionState>, mapId: string, n: nat)
    requires n <= |sessions|
    ensures var r := FindSession(sessions, mapId, n);
            if r.Some? then sessions[r.value].world.id == mapId && forall i :: 0 <= i < r.value ==>
                sessions[i].world.id != mapId
            else forall i :: 0 <= i < n ==> sessions[i].world.id != mapId
  {
    if n > 0 {
      FindSessionIsFirst(sessions, mapId, n - 1);
    }
  }

  // ---------- Join and steer ----------

  // The map's session gets the dog; it is created if there is none.
  function WithDogAt(sessions: seq<SessionState>, m: MapConfig, id: nat, d: DogState): seq<SessionState> {
    match FindSession(sessions, m.id, |sessions|)
    case Some(i) => sessions[i := WithDog(sessions[i], id, d)]
    case None => sessions + [WithDog(NewSession(m), id, d)]
  }

  // AddDog, Players::Add and the token table's entry; a player id already in the table keeps its player.
  function Joined(cfg: Config, st: ServerState, name: string, mapId: string, spawn: Cell, token: string): ServerState {
    if mapId !in cfg.maps then st
    else
      var m := cfg.maps[mapId];
      var id := st.nextPlayer;
      var players := Emplace(st.players, id, Player(id, m.id));
      st.(sessions := WithDogAt(st.sessions, m, id, NewDog(spawn.ToVec(), m.speed, name, Capacity(m))),
          players := players, tokens := st.tokens[token := players[id]], nextPlayer := id + 1)
  }

  // Spawn points are drawn on the roads or fixed to the start of the first road; tokens are fresh.
  ghost predicate LegalJoin(cfg: Config, st: ServerState, mapId: string, spawn: Cell, token: string) {
    && token != "" && token !in st.tokens
    && (mapId in cfg.maps ==>
          if cfg.randomizeSpawn then SpawnPoint(cfg.maps[mapId], spawn)
          else |cfg.maps[mapId].roads| > 0 && spawn == cfg.maps[mapId].roads[0].start)
  }

  function SteeredIn(s: SessionState, id: nat, move: string): SessionState {
    if id in s.dogs then s.(dogs := s.dogs[id := Steered(s.dogs[id], move)]) else s
  }

  // The player's dog is in its session.
  predicate HasDog(sessions: seq<SessionState>, p: Player) {
    var r := FindSession(sessions, p.mapId, |sessions|);
    r.Some? && p.id in sessions[r.value].dogs
  }

  // The token leads to a dog. A move request looks the dog up without a test.
  predicate Finds(st: ServerState, token: string) { token in st.tokens && HasDog(st.sessions, st.tokens[token]) }

  function Steering(st: ServerState, token: string, move: string): ServerState {
    if token !in st.tokens then st
    else
      var p := st.tokens[token];
      match FindSession(st.sessions, p.mapId, |st.sessions|)
      case None => st
      case Some(i) => st.(sessions := st.sessions[i := SteeredIn(st.sessions[i], p.id, move)])
  }

  // ---------- Save ----------

  function ReprOf(id: nat, d: DogState): DogRepr {
    DogRepr(id, d.name, d.coord, d.maxBagSize, d.speed, d.defaultSpeed, d.direct, d.score, d.bag)
  }

  // For every player id behind a token, one of its tokens.
  ghost predicate InverseOf(tokens: map<string, Player>, inverse: map<nat, string>) {
    && (forall id: nat :: id in inverse ==> inverse[id] in tokens && tokens[inverse[id]].id == id)
    && (forall t :: t in tokens ==> tokens[t].id in inverse)
  }

  // One session's saved data: every dog once, in iteration order, and all tokens of the server; the
  // lost things are copied inside the loop over the dogs.
  ghost predicate IsSessionBackup(s: SessionState, tokens: map<string, Player>, data: SaveSession) {
    && data.mapId == s.world.id
    && (forall k :: 0 <= k < |data.dogs| ==>
        data.dogs[k].id in s.dogs && data.dogs[k] == ReprOf(data.dogs[k].id, s.dogs[data.dogs[k].id]))
    && (forall i, j :: 0 <= i < j < |data.dogs| ==> data.dogs[i].id != data.dogs[j].id)
    && (forall id: nat :: id in s.dogs ==> Saves(data.dogs, id))
    && data.loots == (if |data.dogs| == 0 then map[] else s.loots)
    && InverseOf(tokens, data.dogIdToToken)
  }

  ghost predicate Saves(reprs: seq<DogRepr>, id: nat) { exists k :: 0 <= k < |reprs| && reprs[k].id == id }

  ghost predicate IsBackup(st: ServerState, saved: seq<SaveSession>) {
    && |saved| == |st.sessions|
    && forall i :: 0 <= i < |saved| ==> IsSessionBackup(st.sessions[i], st.tokens, saved[i])
  }

  // What is written to the state file, if there is one, is a backup.
  ghost predicate Writes(cfg: Config, st: ServerState, saved: seq<SaveSession>) {
    cfg.hasStateFile ==> IsBackup(st, saved)
  }

  function Saved(cfg: Config, st: ServerState, saved: seq<SaveSession>): ServerState {
    if cfg.hasStateFile then st.(disk := Some(saved)) else st
  }

  // ---------- Tick ----------

  // Session i removes its dog of this id.
  ghost predicate Removes(ts: seq<TickChoice>, i: nat, id: nat) {
    i < |ts| && Listed(ts[i].retirees, |ts[i].retirees|, id)
  }

  ghost predicate RetiresIn(ts: seq<TickChoice>, id: nat) { exists i: nat :: Removes(ts, i, id) }

  function RecordsOf(rs: seq<Retiree>, n: nat): seq<Record>
    requires n <= |rs|
  {
    if n == 0 then [] else RecordsOf(rs, n - 1) + [rs[n - 1].record]
  }

  function AllRecords(ts: seq<TickChoice>, n: nat): seq<Record>
    requires n <= |ts|
  {
    if n == 0 then [] else AllRecords(ts, n - 1) + RecordsOf(ts[n - 1].retirees, |ts[n - 1].retirees|)
  }

  // What the scan after one removal did: it dropped a token of the dog; or all of them are dropped; or it
  // may have come to the empty token first, which is not dropped.
  ghost predicate Scans(tokens: map<string, Player>, dropped: map<string, nat>, i: nat, id: nat) {
    || (exists t :: t in dropped && t in tokens && dropped[t] == i && tokens[t].id == id)
    || (forall t :: t in tokens && tokens[t].id == id ==> t in dropped)
    || ("" in tokens && tokens[""].id == id)
  }

  // The tokens that leave the table, each with the session whose removal drops it: a removal drops one
  // token at most.
  ghost predicate LegalDrop(tokens: map<string, Player>, ts: seq<TickChoice>, dropped: map<string, nat>) {
    && (forall t :: t in dropped ==> t != "" && t in tokens && Removes(ts, dropped[t], tokens[t].id))
    && (forall t, u :: t in dropped && u in dropped && t != u && tokens[t].id == tokens[u].id ==>
          dropped[t] != dropped[u])
    && (forall i: nat, id: nat :: Removes(ts, i, id) ==> Scans(tokens, dropped, i, id))
  }

  ghost predicate LegalSessions(cfg: Config, st: ServerState, dt: nat, ts: seq<TickChoice>) {
    && |ts| == |st.sessions|
    && forall i :: 0 <= i < |ts| ==>
        LegalDraw(st.sessions[i], ts[i]) && LegalTick(st.sessions[i], cfg.retirement, dt, ts[i])
  }

  // All sessions ticked, retired dogs out of the tables, records saved, time advanced.
  ghost function Advance(cfg: Config, st: ServerState, dt: nat, ts: seq<TickChoice>,
      dropped: map<string, nat>): ServerState
    requires LegalSessions(cfg, st, dt, ts)
  {
    st.(sessions := seq(|ts|, i requires 0 <= i < |ts| => Ticked(st.sessions[i], dt, ts[i])),
        players := map id: nat | id in st.players && !RetiresIn(ts, id) :: st.players[id],
        tokens := map t | t in st.tokens && t !in dropped :: st.tokens[t],
        records := st.records + AllRecords(ts, |ts|),
        serverTime := st.serverTime + dt)
  }

  predicate SaveDue(st: ServerState) { st.backupTime > 0 && st.serverTime >= st.backupTime }

  function AutoSaved(cfg: Config, st: ServerState, saved: seq<SaveSession>): ServerState {
    if SaveDue(st) then Saved(cfg, st.(backupTime := st.serverTime + cfg.savePeriod), saved) else st
  }

  // ---------- Restart ----------

  function RestoredDog(r: DogRepr): DogState {
    var d := NewDog(r.coord, r.defaultSpeed, r.name, r.bagCapacity);
    d.(speed := r.speed, direct := r.direction, score := r.score, bag := r.bagContent)
  }

  // operator[] on the saved table: a missing entry reads as the empty token.
  function TokenOf(data: SaveSession, id: nat): string {
    if id in data.dogIdToToken then data.dogIdToToken[id] else ""
  }

  // The map's session gets a dog back; the lost things come back with the dog that creates it.
  function Homed(sessions: seq<SessionState>, m: MapConfig, data: SaveSession, r: DogRepr): seq<SessionState> {
    match FindSession(sessions, m.id, |sessions|)
    case Some(i) => sessions[i := WithDog(sessions[i], r.id, RestoredDog(r))]
    case None => sessions + [WithDog(NewSession(m), r.id, RestoredDog(r)).(
        loots := data.loots, lootIdIncr := |data.loots|)]
  }

  predicate Restorable(cfg: Config, saved: seq<SaveSession>) {
    forall i :: 0 <= i < |saved| ==> saved[i].mapId in cfg.maps
  }

  // The three tables after the first n dogs of one saved session, and after n saved sessions.
  function HomedDogs(sessions: seq<SessionState>, m: MapConfig, data: SaveSession, n: nat): seq<SessionState>
    requires n <= |data.dogs|
  {
    Fold(Homing(m, data), sessions, data.dogs, n)
  }

  function Homing(m: MapConfig, data: SaveSession): (seq<SessionState>, DogRepr) -> seq<SessionState> {
    (sessions: seq<SessionState>, r: DogRepr) => Homed(sessions, m, data, r)
  }

  function HomedAll(cfg: Config, sessions: seq<SessionState>, saved: seq<SaveSession>, n: nat): seq<SessionState>
    requires Restorable(cfg, saved) && n <= |saved|
  {
    if n == 0 then sessions
    else HomedDogs(HomedAll(cfg, sessions, saved, n - 1), cfg.maps[saved[n - 1].mapId], saved[n - 1],
        |saved[n - 1].dogs|)
  }

  function SeatedDogs(players: map<nat, Player>, data: SaveSession, n: nat): map<nat, Player>
    requires n <= |data.dogs|
  {
    if n == 0 then players
    else Emplace(SeatedDogs(players, data, n - 1), data.dogs[n - 1].id, Player(data.dogs[n - 1].id, data.mapId))
  }

  function SeatedAll(players: map<nat, Player>, saved: seq<SaveSession>, n: nat): map<nat, Player>
    requires n <= |saved|
  {
    if n == 0 then players else SeatedDogs(SeatedAll(players, saved, n - 1), saved[n - 1], |saved[n - 1].dogs|)
  }

  function TokenedDogs(tokens: map<string, Player>, players: map<nat, Player>, data: SaveSession,
      n: nat): map<string, Player>
    requires n <= |data.dogs|
  {
    if n == 0 then tokens
    else
      var id := data.dogs[n - 1].id;
      TokenedDogs(tokens, players, data, n - 1)[TokenOf(data, id) := SeatedDogs(players, data, n)[id]]
  }

  function TokenedAll(tokens: map<string, Player>, players: map<nat, Player>, saved: seq<SaveSession>,
      n: nat): map<string, Player>
    requires n <= |saved|
  {
    if n == 0 then tokens
    else TokenedDogs(TokenedAll(tokens, players, saved, n - 1), SeatedAll(players, saved, n - 1), saved[n - 1],
        |saved[n - 1].dogs|)
  }

  // The id counter restarts at the number of players.
  function Restored(cfg: Config, st: ServerState, saved: seq<SaveSession>): ServerState
    requires Restorable(cfg, saved)
  {
    var players := SeatedAll(st.players, saved, |saved|);
    st.(sessions := HomedAll(cfg, st.sessions, saved, |saved|),
        players := players,
        tokens := TokenedAll(st.tokens, st.players, saved, |saved|),
        nextPlayer := |players|)
  }

  // ---------- Runs ----------

  datatype Action =
    | Join(name: string, mapId: string, spawn: Cell, token: string)
    | Steer(token: string, move: string)
    | Tick(dt: nat, ts: seq<TickChoice>, dropped: map<string, nat>, saved: seq<SaveSession>)
    | Save(saved: seq<SaveSession>)
    | Restart

  ghost predicate Legal(cfg: Config, st: ServerState, a: Action) {
    match a
    case Join(_, mapId, spawn, token) => LegalJoin(cfg, st, mapId, spawn, token)
    case Steer(token, _) => token in st.tokens ==> Finds(st, token)
    case Tick(dt, ts, dropped, saved) =>
      LegalSessions(cfg, st, dt, ts) && LegalDrop(st.tokens, ts, dropped)
      && (SaveDue(Advance(cfg, st, dt, ts, dropped)) ==> Writes(cfg, Advance(cfg, st, dt, ts, dropped), saved))
    case Save(saved) => Writes(cfg, st, saved)
    case Restart => cfg.hasStateFile && st.disk.Some? ==> Restorable(cfg, st.disk.value)
  }

  // What one action makes of the server. A restart begins with an empty server, whose records and
  // state file are those of its predecessor.
  ghost function Step(cfg: Config, st: ServerState, a: Action): ServerState
    requires Legal(cfg, st, a)
  {
    match a
    case Join(name, mapId, spawn, token) => Joined(cfg, st, name, mapId, spawn, token)
    case Steer(token, move) => Steering(st, token, move)
    case Tick(dt, ts, dropped, saved) => AutoSaved(cfg, Advance(cfg, st, dt, ts, dropped), saved)
    case Save(saved) => Saved(cfg, st, saved)
    case Restart =>
      var empty := Fresh(cfg).(records := st.records, disk := st.disk);
      if cfg.hasStateFile && st.disk.Some? then Opened(Restored(cfg, empty, st.disk.value)) else empty
  }

  // A restored session starts its history with what it holds.
  ghost function OpeningLedger(s: SessionState): Ledger {
    Ledger(Sums.Union(Ground(s.loots)) + Sums.Union(Bags(s.dogs)), multiset{}, multiset{}, 0, Sums.Sum(Scores(s.dogs)))
  }

  ghost function Opened(st: ServerState): ServerState {
    st.(sessions := seq(|st.sessions|, i requires 0 <= i < |st.sessions| =>
        st.sessions[i].(ledger := OpeningLedger(st.sessions[i]))))
  }

  // In a tick every session makes its own.
  lemma TickStep(cfg: Config, st: ServerState, a: Action, k: nat)
    requires Legal(cfg, st, a) && a.Tick? && k < |st.sessions|
    ensures |Step(cfg, st, a).sessions| == |st.sessions| == |a.ts|
    ensures LegalDraw(st.sessions[k], a.ts[k]) && LegalTick(st.sessions[k], cfg.retirement, a.dt, a.ts[k])
    ensures LegalRoutes(st.sessions[k], a.ts[k].routes) &&
        Step(cfg, st, a).sessions[k] == Ticked(st.sessions[k], a.dt, a.ts[k])
  {
  }

  datatype Run = Run(states: seq<ServerState>, actions: seq<Action>)

  ghost predicate Follows(cfg: Config, st: ServerState, a: Action, next: ServerState) {
    Legal(cfg, st, a) && next == Step(cfg, st, a)
  }

  ghost predicate StepsAt(cfg: Config, r: Run, i: nat) {
    i + 1 < |r.states| && i < |r.actions| && Follows(cfg, r.states[i], r.actions[i], r.states[i + 1])
  }

  ghost predicate IsRun(cfg: Config, r: Run) {
    |r.states| == |r.actions| + 1 && forall i: nat :: i < |r.actions| ==> StepsAt(cfg, r, i)
  }

  lemma RunStep(cfg: Config, r: Run, n: nat)
    requires IsRun(cfg, r) && n + 1 < |r.states|
    ensures n < |r.actions| && Legal(cfg, r.states[n], r.actions[n]) &&
        r.states[n + 1] == Step(cfg, r.states[n], r.actions[n])
  {
    assert StepsAt(cfg, r, n);
  }

  lemma StepsOn(cfg: Config, r: Run, n: nat)
    requires IsRun(cfg, r) && n < |r.actions|
    ensures n + 1 < |r.states|
  {
  }

  ghost predicate NoRestart(r: Run) { forall i :: 0 <= i < |r.actions| ==> !r.actions[i].Restart? }

  function Extended(r: Run, a: Action, st: ServerState): Run { Run(r.states + [st], r.actions + [a]) }

  // The run so far, over all processes of the server, ends in this state.
  ghost predicate EndsIn(cfg: Config, r: Run, st: ServerState) {
    IsRun(cfg, r) && r.states[0] == Fresh(cfg) && r.states[|r.actions|] == st
  }

  lemma RunExtends(cfg: Config, r: Run, st: ServerState, a: Action, next: ServerState)
    requires EndsIn(cfg, r, st) && Legal(cfg, st, a) && next == Step(cfg, st, a)
    ensures EndsIn(cfg, Extended(r, a, next), next)
  {
    hide Legal, Step, Fresh;
    var e := Extended(r, a, next);
    forall i: nat | i < |e.actions| ensures StepsAt(cfg, e, i) {
      if i < |r.actions| {
        assert StepsAt(cfg, r, i);
        assert e.states[i] == r.states[i] && e.states[i + 1] == r.states[i + 1] && e.actions[i] == r.actions[i];
      } else {
        assert e.states[i] == st && e.states[i + 1] == next && e.actions[i] == a;
      }
    }
  }
}
