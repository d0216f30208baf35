/** When a token still leads to a dog: a move request looks the dog up without a test. */
module TokenLookup {
  import opened Wrappers
  import opened Roads
  import opened Dogs
  import opened Sessions
  import opened Servers
  import opened Agreement
  import opened SaveRestore
  import opened AfterRestart

  ghost predicate AllFind(st: ServerState) { forall t :: t in st.tokens ==> Finds(st, t) }

  lemma IndexedFinds(st: ServerState)
    requires Indexed(st)
    ensures AllFind(st)
  {
    hide Indexed;
    forall t | t in st.tokens ensures Finds(st, t) {
      TokenFindsDog(st, t);
    }
  }

  // Over every run: as long as no join meets an id in use, every token leads to its dog.
  lemma RunFreshFinds(cfg: Config, r: Run, n: nat)
    requires GoodConfig(cfg) && IsRun(cfg, r) && r.states[0] == Fresh(cfg) && n < |r.states| && FreshJoins(cfg, r, n)
    ensures AllFind(r.states[n])
  {
    hide Indexed, Legal, Step, IsRun, GoodConfig, AllFind, FreshJoins;
    RunIndexed(cfg, r, n);
    IndexedFinds(r.states[n]);
  }

  // ---------- The sessions a player is looked up in ----------

  lemma {:induction false} SameWorldsFind(ss: seq<SessionState>, tt: seq<SessionState>, mapId: string, n: nat)
    requires n <= |ss| && n <= |tt| && forall i :: 0 <= i < n ==> ss[i].world.id == tt[i].world.id
    ensures FindSession(ss, mapId, n) == FindSession(tt, mapId, n)
  {
    if n > 0 {
      SameWorldsFind(ss, tt, mapId, n - 1);
    }
  }

  // More sessions at the end, and more dogs in those there were: no player loses its dog.
  lemma DogsStay(ss: seq<SessionState>, tt: seq<SessionState>, p: Player)
    requires |ss| <= |tt| && HasDog(ss, p)
    requires forall i :: 0 <= i < |ss| ==> ss[i].world.id == tt[i].world.id && ss[i].dogs.Keys <= tt[i].dogs.Keys
    ensures HasDog(tt, p)
  {
    hide FindSession;
    FindSessionIsFirst(ss, p.mapId, |ss|);
    FindSessionIsFirst(tt, p.mapId, |tt|);
  }

  // Putting a dog into the first session on its map, or into a new one at the end.
  ghost predicate Housed(ss: seq<SessionState>, tt: seq<SessionState>, p: Player) {
    && |ss| <= |tt| && HasDog(tt, p)
    && forall i :: 0 <= i < |ss| ==> ss[i].world.id == tt[i].world.id && ss[i].dogs.Keys <= tt[i].dogs.Keys
  }

  lemma PutInFirst(ss: seq<SessionState>, tt: seq<SessionState>, mapId: string, id: nat)
    requires |ss| <= |tt| <= |ss| + 1
    requires forall i :: 0 <= i < |ss| ==> ss[i].world.id == tt[i].world.id && ss[i].dogs.Keys <= tt[i].dogs.Keys
    requires match FindSession(ss, mapId, |ss|)
             case Some(i) => id in tt[i].dogs
             case None => |tt| == |ss| + 1 && tt[|ss|].world.id == mapId && id in tt[|ss|].dogs
    ensures Housed(ss, tt, Player(id, mapId))
  {
    hide FindSession;
    FindSessionIsFirst(ss, mapId, |ss|);
    FindSessionIsFirst(tt, mapId, |tt|);
  }

  lemma JoinHouses(ss: seq<SessionState>, m: MapConfig, id: nat, d: DogState)
    ensures Housed(ss, WithDogAt(ss, m, id, d), Player(id, m.id))
  {
    hide FindSession;
    PutInFirst(ss, WithDogAt(ss, m, id, d), m.id, id);
  }

  lemma RestoreHouses(ss: seq<SessionState>, m: MapConfig, data: SaveSession, r: DogRepr)
    ensures Housed(ss, Homed(ss, m, data, r), Player(r.id, m.id))
  {
    hide FindSession, RestoredDog;
    PutInFirst(ss, Homed(ss, m, data, r), m.id, r.id);
  }

  // ---------- Tables in which everybody has a dog ----------

  ghost predicate PlayersLive(sessions: seq<SessionState>, players: map<nat, Player>) {
    forall id: nat :: id in players ==> players[id].id == id && HasDog(sessions, players[id])
  }

  ghost predicate TokensLive(sessions: seq<SessionState>, tokens: map<string, Player>) {
    forall t :: t in tokens ==> HasDog(sessions, tokens[t])
  }

  // A new dog, its player - or the one who has its id already - and a token for that player: everybody who
  // had a dog has it, and so has the token's player.
  lemma SeatLives(ss: seq<SessionState>, tt: seq<SessionState>, players: map<nat, Player>,
      tokens: map<string, Player>, p: Player, token: string)
    requires PlayersLive(ss, players) && Housed(ss, tt, p)
    ensures PlayersLive(tt, Emplace(players, p.id, p))
    ensures TokensLive(ss, tokens) ==> TokensLive(tt, tokens[token := Emplace(players, p.id, p)[p.id]])
  {
    hide HasDog;
    var seated := Emplace(players, p.id, p);
    forall id: nat | id in seated ensures seated[id].id == id && HasDog(tt, seated[id]) {
      if id in players {
        DogsStay(ss, tt, players[id]);
      }
    }
    if TokensLive(ss, tokens) {
      forall t | t in tokens ensures HasDog(tt, tokens[t]) {
        DogsStay(ss, tt, tokens[t]);
      }
    }
  }

  lemma {:induction false} DogsRestoredLive(m: MapConfig, data: SaveSession, ss: seq<SessionState>,
      players: map<nat, Player>, tokens: map<string, Player>, n: nat)
    requires m.id == data.mapId && n <= |data.dogs| && PlayersLive(ss, players) && TokensLive(ss, tokens)
    ensures PlayersLive(HomedDogs(ss, m, data, n), SeatedDogs(players, data, n))
    ensures TokensLive(HomedDogs(ss, m, data, n), TokenedDogs(tokens, players, data, n))
  {
    hide PlayersLive, TokensLive, Homed, HomedDogs, TokenOf, Emplace;
    if n == 0 {
      HomedNone(ss, m, data);
    } else {
      DogsRestoredLive(m, data, ss, players, tokens, n - 1);
      HomedDogsNext(ss, m, data, n);
      var before, r := HomedDogs(ss, m, data, n - 1), data.dogs[n - 1];
      RestoreHouses(before, m, data, r);
      SeatLives(before, Homed(before, m, data, r), SeatedDogs(players, data, n - 1),
                TokenedDogs(tokens, players, data, n - 1), Player(r.id, m.id), TokenOf(data, r.id));
    }
  }

  lemma {:induction false} AllRestoredLive(cfg: Config, saved: seq<SaveSession>, n: nat)
    requires MapsKeyed(cfg) && Restorable(cfg, saved) && n <= |saved|
    ensures PlayersLive(HomedAll(cfg, [], saved, n), SeatedAll(map[], saved, n))
    ensures TokensLive(HomedAll(cfg, [], saved, n), TokenedAll(map[], map[], saved, n))
  {
    hide PlayersLive, TokensLive, HomedDogs, SeatedDogs, TokenedDogs;
    if n == 0 {
      NobodyLives();
    } else {
      AllRestoredLive(cfg, saved, n - 1);
      var data := saved[n - 1];
      DogsRestoredLive(cfg.maps[data.mapId], data, HomedAll(cfg, [], saved, n - 1), SeatedAll(map[], saved, n - 1),
                       TokenedAll(map[], map[], saved, n - 1), |data.dogs|);
    }
  }

  lemma NobodyLives()
    ensures PlayersLive([], map[]) && TokensLive([], map[])
  {
  }

  // ---------- One action ----------

  ghost predicate Rooted(st: ServerState) { PlayersLive(st.sessions, st.players) }

  lemma AllFindIsLive(st: ServerState)
    ensures AllFind(st) <==> TokensLive(st.sessions, st.tokens)
  {
    hide HasDog;
  }

  // A restart gives every player and every token a dog, whatever is on disk.
  lemma RestartFinds(cfg: Config, st: ServerState)
    requires MapsKeyed(cfg) && Legal(cfg, st, Restart)
    ensures Rooted(Step(cfg, st, Restart)) && AllFind(Step(cfg, st, Restart))
  {
    hide PlayersLive, TokensLive, HomedAll, SeatedAll, TokenedAll, Restorable, OpeningLedger, AllFind, Opened;
    var r := Step(cfg, st, Restart);
    AllFindIsLive(r);
    if cfg.hasStateFile && st.disk.Some? {
      var saved, empty := st.disk.value, Fresh(cfg).(records := st.records, disk := st.disk);
      AllRestoredLive(cfg, saved, |saved|);
      BooksOpened(Restored(cfg, empty, saved));
    } else {
      NobodyLives();
    }
  }

  lemma BooksOpened(st: ServerState)
    ensures Opened(st).players == st.players && Opened(st).tokens == st.tokens
    ensures PlayersLive(st.sessions, st.players) ==> PlayersLive(Opened(st).sessions, st.players)
    ensures TokensLive(st.sessions, st.tokens) ==> TokensLive(Opened(st).sessions, st.tokens)
  {
    hide HasDog, OpeningLedger;
    SameDogsLive(st.sessions, Opened(st).sessions);
  }

  lemma SameDogsLive(ss: seq<SessionState>, tt: seq<SessionState>)
    requires |ss| == |tt|
    requires forall i :: 0 <= i < |ss| ==> ss[i].world.id == tt[i].world.id && ss[i].dogs.Keys == tt[i].dogs.Keys
    ensures forall p :: HasDog(ss, p) <==> HasDog(tt, p)
  {
    hide HasDog;
    forall p ensures HasDog(ss, p) <==> HasDog(tt, p) {
      if HasDog(ss, p) {
        DogsStay(ss, tt, p);
      }
      if HasDog(tt, p) {
        DogsStay(tt, ss, p);
      }
    }
  }

  // A join leaves every player and every token its dog, even if its id is in use.
  lemma JoinFinds(cfg: Config, st: ServerState, name: string, mapId: string, spawn: Cell, token: string)
    requires MapsKeyed(cfg) && Rooted(st)
    ensures Rooted(Joined(cfg, st, name, mapId, spawn, token))
    ensures AllFind(st) ==> AllFind(Joined(cfg, st, name, mapId, spawn, token))
  {
    hide PlayersLive, TokensLive, WithDogAt, Housed, AllFind, Emplace;
    if mapId in cfg.maps {
      var m, id := cfg.maps[mapId], st.nextPlayer;
      var d := NewDog(spawn.ToVec(), m.speed, name, Capacity(m));
      JoinHouses(st.sessions, m, id, d);
      SeatLives(st.sessions, WithDogAt(st.sessions, m, id, d), st.players, st.tokens, Player(id, m.id), token);
      AllFindIsLive(st);
      AllFindIsLive(Joined(cfg, st, name, mapId, spawn, token));
    }
  }

  lemma QuietFinds(cfg: Config, st: ServerState, a: Action)
    requires Legal(cfg, st, a) && (a.Steer? || a.Save?)
    ensures Rooted(st) ==> Rooted(Step(cfg, st, a))
    ensures AllFind(st) ==> AllFind(Step(cfg, st, a))
  {
    hide PlayersLive, TokensLive, AllFind, HasDog;
    QuietDogs(cfg, st, a);
    var r := Step(cfg, st, a);
    AllFindIsLive(st);
    AllFindIsLive(r);
    SameDogsLive(st.sessions, r.sessions);
    LivesOn(st.sessions, r.sessions, st.players, st.tokens);
  }

  lemma LivesOn(ss: seq<SessionState>, tt: seq<SessionState>, players: map<nat, Player>, tokens: map<string, Player>)
    requires forall p :: HasDog(ss, p) <==> HasDog(tt, p)
    ensures PlayersLive(ss, players) ==> PlayersLive(tt, players)
    ensures TokensLive(ss, tokens) ==> TokensLive(tt, tokens)
  {
    hide HasDog;
  }

  lemma QuietDogs(cfg: Config, st: ServerState, a: Action)
    requires Legal(cfg, st, a) && (a.Steer? || a.Save?)
    ensures var r := Step(cfg, st, a);
            && r.players == st.players && r.tokens == st.tokens && |r.sessions| == |st.sessions|
            && forall i :: 0 <= i < |st.sessions| ==>
                st.sessions[i].world.id == r.sessions[i].world.id && st.sessions[i].dogs.Keys == r.sessions[i].dogs.Keys
  {
    hide Writes, HasDog;
  }

  // ---------- The tick ----------

  // The dog to which the token leads is removed in a tick of this length.
  ghost predicate LosesDog(cfg: Config, st: ServerState, dt: nat, t: string)
    requires Finds(st, t)
  {
    var p := st.tokens[t];
    Expires(cfg.retirement, st.sessions[FindSession(st.sessions, p.mapId, |st.sessions|).value].dogs[p.id], dt)
  }

  // The player's dog after a tick: it is there if it was there and did not expire.
  lemma TickedHasDog(cfg: Config, st: ServerState, dt: nat, ts: seq<TickChoice>, dropped: map<string, nat>, p: Player)
    requires LegalSessions(cfg, st, dt, ts)
    ensures var r := FindSession(st.sessions, p.mapId, |st.sessions|);
            HasDog(Advance(cfg, st, dt, ts, dropped).sessions, p) <==>
              HasDog(st.sessions, p) && !Expires(cfg.retirement, st.sessions[r.value].dogs[p.id], dt)
  {
    hide LegalTick, LegalDraw, Ticked, FindSession, RetiresIn, Expires, AllRecords;
    var after := Advance(cfg, st, dt, ts, dropped).sessions;
    forall i: nat | i < |st.sessions| ensures after[i].world.id == st.sessions[i].world.id {
      AdvanceAt(cfg, st, dt, ts, dropped, i);
      TickFrame(st.sessions[i], dt, ts[i]);
    }
    SameWorldsFind(st.sessions, after, p.mapId, |after|);
    var r := FindSession(st.sessions, p.mapId, |st.sessions|);
    if r.Some? {
      AdvanceAt(cfg, st, dt, ts, dropped, r.value);
      TickedDog(st.sessions[r.value], cfg.retirement, dt, ts[r.value], p.id);
    }
  }

  // After a tick every token leads to a dog exactly if none was kept whose dog was removed.
  ghost predicate KeepsNone(cfg: Config, st: ServerState, dt: nat, dropped: map<string, nat>) {
    forall t :: t in st.tokens && t !in dropped && Finds(st, t) ==> !LosesDog(cfg, st, dt, t)
  }

  lemma TickFinds(cfg: Config, st: ServerState, dt: nat, ts: seq<TickChoice>, dropped: map<string, nat>)
    requires LegalSessions(cfg, st, dt, ts) && AllFind(st)
    ensures AllFind(Advance(cfg, st, dt, ts, dropped)) <==> KeepsNone(cfg, st, dt, dropped)
  {
    hide LegalSessions, FindSession, Expires, RetiresIn, AllRecords, Ticked;
    var r := Advance(cfg, st, dt, ts, dropped);
    forall t | t in st.tokens && t !in dropped ensures Finds(r, t) <==> !LosesDog(cfg, st, dt, t) {
      TickedHasDog(cfg, st, dt, ts, dropped, st.tokens[t]);
    }
  }

  lemma TickRooted(cfg: Config, st: ServerState, dt: nat, ts: seq<TickChoice>, dropped: map<string, nat>)
    requires LegalSessions(cfg, st, dt, ts) && Rooted(st)
    ensures Rooted(Advance(cfg, st, dt, ts, dropped))
  {
    hide LegalSessions, FindSession, Expires, RetiresIn, AllRecords, Ticked;
    var r := Advance(cfg, st, dt, ts, dropped);
    forall id: nat | id in r.players ensures r.players[id].id == id && HasDog(r.sessions, r.players[id]) {
      var p := st.players[id];
      TickedHasDog(cfg, st, dt, ts, dropped, p);
      var k := FindSession(st.sessions, p.mapId, |st.sessions|).value;
      if Expires(cfg.retirement, st.sessions[k].dogs[id], dt) {
        ExpiringIsRemoved(cfg, st, dt, ts, k, id);
        RemovedRetires(ts, k, id);
      }
    }
  }

  lemma RemovedRetires(ts: seq<TickChoice>, i: nat, id: nat)
    requires Removes(ts, i, id)
    ensures RetiresIn(ts, id)
  {
  }

  lemma ExpiringIsRemoved(cfg: Config, st: ServerState, dt: nat, ts: seq<TickChoice>, i: nat, id: nat)
    requires LegalSessions(cfg, st, dt, ts) && i < |st.sessions|
    ensures Removes(ts, i, id) <==> id in st.sessions[i].dogs && Expires(cfg.retirement, st.sessions[i].dogs[id], dt)
  {
    hide Expires;
    assert LegalTick(st.sessions[i], cfg.retirement, dt, ts[i]);
    if Removes(ts, i, id) {
      ListedLives(cfg, st, dt, ts, i, id);
    }
  }

  // ---------- Whole runs ----------

  ghost predicate KeepsNoneAt(cfg: Config, r: Run, i: nat) {
    i < |r.actions| && i < |r.states| && r.actions[i].Tick? ==>
      KeepsNone(cfg, r.states[i], r.actions[i].dt, r.actions[i].dropped)
  }

  lemma StepRooted(cfg: Config, st: ServerState, a: Action)
    requires MapsKeyed(cfg) && Legal(cfg, st, a) && Rooted(st)
    ensures Rooted(Step(cfg, st, a))
    ensures AllFind(st) && !a.Tick? ==> AllFind(Step(cfg, st, a))
  {
    hide Rooted, AllFind, Joined, Advance, LegalSessions, LegalDrop, Writes, LegalJoin, Steering, Restored, Opened;
    match a
    case Join(name, mapId, spawn, token) => JoinFinds(cfg, st, name, mapId, spawn, token);
    case Tick(dt, ts, dropped, saved) =>
      TickRooted(cfg, st, dt, ts, dropped);
      SavedTables(cfg, Advance(cfg, st, dt, ts, dropped), saved);
    case Restart => RestartFinds(cfg, st);
    case Steer(_, _) => QuietFinds(cfg, st, a);
    case Save(_) => QuietFinds(cfg, st, a);
  }

  lemma SavedTables(cfg: Config, st: ServerState, saved: seq<SaveSession>)
    ensures Rooted(st) ==> Rooted(AutoSaved(cfg, st, saved))
    ensures AllFind(st) <==> AllFind(AutoSaved(cfg, st, saved))
  {
    hide HasDog;
  }

  lemma TickStepFinds(cfg: Config, st: ServerState, a: Action)
    requires Legal(cfg, st, a) && a.Tick? && AllFind(st)
    ensures AllFind(Step(cfg, st, a)) <==> KeepsNone(cfg, st, a.dt, a.dropped)
  {
    hide AllFind, KeepsNone, Advance, LegalSessions, LegalDrop, Writes;
    TickFinds(cfg, st, a.dt, a.ts, a.dropped);
    SavedTables(cfg, Advance(cfg, st, a.dt, a.ts, a.dropped), a.saved);
  }

  // In every state of every run every player of the table has its dog.
  lemma {:induction false} RunRooted(cfg: Config, r: Run, n: nat)
    requires MapsKeyed(cfg) && IsRun(cfg, r) && r.states[0] == Fresh(cfg) && n < |r.states|
    ensures Rooted(r.states[n])
  {
    hide Legal, Step, IsRun, MapsKeyed, Rooted;
    if n == 0 {
      FreshLives(cfg);
    } else {
      RunRooted(cfg, r, n - 1);
      RunStep(cfg, r, n - 1);
      StepRooted(cfg, r.states[n - 1], r.actions[n - 1]);
    }
  }

  lemma FreshLives(cfg: Config)
    ensures Rooted(Fresh(cfg)) && AllFind(Fresh(cfg))
  {
  }

  lemma {:induction false} RunFinds(cfg: Config, r: Run, n: nat)
    requires MapsKeyed(cfg) && IsRun(cfg, r) && r.states[0] == Fresh(cfg) && n < |r.states|
    requires forall i: nat :: i < n ==> KeepsNoneAt(cfg, r, i)
    ensures AllFind(r.states[n])
  {
    hide Legal, Step, IsRun, MapsKeyed, Rooted, AllFind, KeepsNone;
    if n == 0 {
      FreshLives(cfg);
    } else {
      RunFinds(cfg, r, n - 1);
      RunRooted(cfg, r, n - 1);
      RunStep(cfg, r, n - 1);
      StepRooted(cfg, r.states[n - 1], r.actions[n - 1]);
      assert KeepsNoneAt(cfg, r, n - 1);
      if r.actions[n - 1].Tick? {
        TickStepFinds(cfg, r.states[n - 1], r.actions[n - 1]);
      }
    }
  }

  // Over every run, restarts included: every token leads to a dog in every state if and only if no tick
  // keeps a token whose dog it removes. Joins with ids in use and restarts by themselves do no harm.
  lemma RunFindsIff(cfg: Config, r: Run, n: nat)
    requires MapsKeyed(cfg) && IsRun(cfg, r) && r.states[0] == Fresh(cfg) && n < |r.states|
    ensures (forall m: nat :: m <= n ==> AllFind(r.states[m])) <==> forall i: nat :: i < n ==> KeepsNoneAt(cfg, r, i)
  {
    hide Legal, Step, IsRun, MapsKeyed, AllFind, KeepsNone;
    if forall i: nat :: i < n ==> KeepsNoneAt(cfg, r, i) {
      forall m: nat | m <= n ensures AllFind(r.states[m]) {
        RunFinds(cfg, r, m);
      }
    }
    if forall m: nat :: m <= n ==> AllFind(r.states[m]) {
      forall i: nat | i < n ensures KeepsNoneAt(cfg, r, i) {
        RunStep(cfg, r, i);
        if r.actions[i].Tick? {
          TickStepFinds(cfg, r.states[i], r.actions[i]);
        }
      }
    }
  }
}
