/** The three indexes - dogs in sessions, the player table, the token table - agree over every run. */
module Agreement {
  import opened Roads
  import opened Dogs
  import opened Sessions
  import opened Servers

  ghost predicate Lives(st: ServerState, i: int, id: nat) { 0 <= i < |st.sessions| && id in st.sessions[i].dogs }

  // A dog lives in a session exactly when the player table has a player of its id on that map.
  ghost predicate DogsArePlayers(st: ServerState) {
    && (forall i, id: nat :: Lives(st, i, id) ==>
        id in st.players && st.players[id] == Player(id, st.sessions[i].world.id))
    && (forall id: nat :: id in st.players ==> exists i :: Lives(st, i, id))
  }

  // Tokens and players are in bijection.
  ghost predicate TokensArePlayers(st: ServerState) {
    && (forall t :: t in st.tokens ==>
        t != "" && st.tokens[t].id in st.players && st.tokens[t] == st.players[st.tokens[t].id])
    && (forall t, u :: t in st.tokens && u in st.tokens && st.tokens[t].id == st.tokens[u].id ==> t == u)
    && (forall id: nat :: id in st.players ==> HasToken(st.tokens, id))
  }

  ghost predicate HasToken(tokens: map<string, Player>, id: nat) { exists t :: t in tokens && tokens[t].id == id }

  ghost predicate Indexed(st: ServerState) {
    OneSessionPerMap(st.sessions) && DogsArePlayers(st) && TokensArePlayers(st)
  }

  ghost predicate Agrees(st: ServerState) {
    && Indexed(st)
    && (forall id: nat :: id in st.players ==> id < st.nextPlayer)
  }

  // What agreement gives a request: the token's session really contains its dog, in one session only.
  lemma TokenFindsDog(st: ServerState, token: string)
    requires Indexed(st) && token in st.tokens
    ensures var p := st.tokens[token];
            var r := FindSession(st.sessions, p.mapId, |st.sessions|);
            r.Some? && Lives(st, r.value, p.id) && forall j :: Lives(st, j, p.id) ==> j == r.value
  {
    var p := st.tokens[token];
    FindSessionIsFirst(st.sessions, p.mapId, |st.sessions|);
    var i :| Lives(st, i, p.id);
    assert st.sessions[i].world.id == p.mapId;
  }

  // ---------- Join ----------

  lemma JoinedSessions(sessions: seq<SessionState>, m: MapConfig, id: nat, d: DogState) returns (i: nat)
    ensures var ss := WithDogAt(sessions, m, id, d);
            && i < |ss| && |sessions| <= |ss| && ss[i].world.id == m.id
            && (forall j :: 0 <= j < |ss| && j != i ==> j < |sessions| && ss[j] == sessions[j])
            && (if i < |sessions| then ss[i] == WithDog(sessions[i], id, d)
                else ss[i] == WithDog(NewSession(m), id, d) && forall j :: 0 <= j < |sessions| ==>
                    sessions[j].world.id != m.id)
  {
    FindSessionIsFirst(sessions, m.id, |sessions|);
    match FindSession(sessions, m.id, |sessions|)
    case Some(k) => i := k;
    case None => i := |sessions|;
  }

  lemma JoinedMaps(st: ServerState, r: ServerState, m: MapConfig, id: nat, d: DogState)
    requires OneSessionPerMap(st.sessions) && r.sessions == WithDogAt(st.sessions, m, id, d)
    ensures OneSessionPerMap(r.sessions)
  {
    hide WithDogAt, FindSession;
    var i := JoinedSessions(st.sessions, m, id, d);
  }

  lemma JoinedLives(st: ServerState, r: ServerState, m: MapConfig, id: nat, d: DogState) returns (i: nat)
    requires r.sessions == WithDogAt(st.sessions, m, id, d)
    ensures i < |r.sessions| && r.sessions[i].world.id == m.id && Lives(r, i, id)
    ensures forall j, x: nat :: Lives(r, j, x) && !(j == i && x == id) ==>
        Lives(st, j, x) && r.sessions[j].world == st.sessions[j].world
    ensures forall j, x: nat :: Lives(st, j, x) ==> Lives(r, j, x)
  {
    hide WithDogAt, FindSession;
    i := JoinedSessions(st.sessions, m, id, d);
  }

  lemma JoinedDogs(st: ServerState, r: ServerState, m: MapConfig, d: DogState)
    requires OneSessionPerMap(st.sessions) && DogsArePlayers(st) &&
        r.sessions == WithDogAt(st.sessions, m, st.nextPlayer, d)
    requires st.nextPlayer !in st.players && r.players == st.players[st.nextPlayer := Player(st.nextPlayer, m.id)]
    ensures OneSessionPerMap(r.sessions) && DogsArePlayers(r)
  {
    hide WithDogAt, FindSession, OneSessionPerMap, Lives;
    var id := st.nextPlayer;
    JoinedMaps(st, r, m, id, d);
    var i := JoinedLives(st, r, m, id, d);
    forall x: nat | x in r.players ensures exists j :: Lives(r, j, x) {
      if x != id {
        var j :| Lives(st, j, x);
        assert Lives(r, j, x);
      }
    }
  }

  lemma JoinedTokens(st: ServerState, r: ServerState, token: string, p: Player)
    requires TokensArePlayers(st) && token != "" && token !in st.tokens && p.id !in st.players
    requires r.players == st.players[p.id := p] && r.tokens == st.tokens[token := p]
    ensures TokensArePlayers(r)
  {
    forall id: nat | id in r.players ensures HasToken(r.tokens, id) {
      if id == p.id {
        assert token in r.tokens && r.tokens[token].id == id;
      } else {
        var t :| t in st.tokens && st.tokens[t].id == id;
        assert t in r.tokens && r.tokens[t].id == id;
      }
    }
  }

  // A join with an id not in use keeps the indexes in agreement, and the token returned finds the dog.
  lemma JoinedIndexed(cfg: Config, st: ServerState, name: string, mapId: string, spawn: Cell, token: string)
    requires GoodConfig(cfg) && Indexed(st) && LegalJoin(cfg, st, mapId, spawn, token)
    requires mapId in cfg.maps && st.nextPlayer !in st.players
    ensures var r := Joined(cfg, st, name, mapId, spawn, token);
            && Indexed(r) && r.nextPlayer == st.nextPlayer + 1 && r.players.Keys == st.players.Keys + {st.nextPlayer}
            && token in r.tokens && r.tokens[token] == Player(st.nextPlayer, mapId)
  {
    hide OneSessionPerMap, DogsArePlayers, TokensArePlayers, WithDogAt;
    var m := cfg.maps[mapId];
    var r := Joined(cfg, st, name, mapId, spawn, token);
    JoinedDogs(st, r, m, NewDog(spawn.ToVec(), m.speed, name, Capacity(m)));
    JoinedTokens(st, r, token, Player(st.nextPlayer, m.id));
  }

  // With an id in use it does not: the new token then belongs to the player who has that id.
  lemma JoinedHijacks(cfg: Config, st: ServerState, name: string, mapId: string, spawn: Cell, token: string)
    requires GoodConfig(cfg) && Indexed(st) && LegalJoin(cfg, st, mapId, spawn, token)
    requires mapId in cfg.maps && st.nextPlayer in st.players
    ensures var r := Joined(cfg, st, name, mapId, spawn, token);
            && token in r.tokens && r.tokens[token] == st.players[st.nextPlayer] && !Indexed(r)
  {
    hide OneSessionPerMap, DogsArePlayers, WithDogAt;
    var r := Joined(cfg, st, name, mapId, spawn, token);
    assert HasToken(st.tokens, st.nextPlayer);
    var t :| t in st.tokens && st.tokens[t].id == st.nextPlayer;
    assert t in r.tokens && r.tokens[t].id == r.tokens[token].id && t != token;
  }

  // ---------- Changes that keep who lives where ----------

  ghost predicate SameTables(st: ServerState, r: ServerState) {
    && |r.sessions| == |st.sessions|
    && (forall i :: 0 <= i < |st.sessions| ==>
        r.sessions[i].world == st.sessions[i].world && r.sessions[i].dogs.Keys == st.sessions[i].dogs.Keys)
    && r.players == st.players && r.tokens == st.tokens && r.nextPlayer == st.nextPlayer
  }

  lemma SameTablesIndexed(st: ServerState, r: ServerState)
    requires Indexed(st) && SameTables(st, r)
    ensures Indexed(r)
  {
    assert forall i, id: nat :: Lives(r, i, id) <==> Lives(st, i, id);
  }

  // ---------- Tick ----------

  // Exactly the retiring dogs leave: r is st without the ids in gone, wherever they appear.
  ghost predicate Without(st: ServerState, r: ServerState, gone: iset<nat>) {
    && |r.sessions| == |st.sessions|
    && (forall i :: 0 <= i < |st.sessions| ==> r.sessions[i].world == st.sessions[i].world)
    && (forall i, id: nat :: Lives(r, i, id) <==> Lives(st, i, id) && id !in gone)
    && (forall id: nat :: id in r.players <==> id in st.players && id !in gone)
    && (forall id: nat :: id in r.players ==> r.players[id] == st.players[id])
    && (forall t :: t in r.tokens <==> t in st.tokens && st.tokens[t].id !in gone)
    && (forall t :: t in r.tokens ==> r.tokens[t] == st.tokens[t])
    && r.nextPlayer == st.nextPlayer
  }

  lemma WithoutDogs(st: ServerState, r: ServerState, gone: iset<nat>)
    requires OneSessionPerMap(st.sessions) && DogsArePlayers(st) && Without(st, r, gone)
    ensures OneSessionPerMap(r.sessions) && DogsArePlayers(r)
  {
    forall id: nat | id in r.players ensures exists i :: Lives(r, i, id) {
      var i :| Lives(st, i, id);
      assert Lives(r, i, id);
    }
  }

  lemma WithoutTokens(st: ServerState, r: ServerState, gone: iset<nat>)
    requires TokensArePlayers(st) && Without(st, r, gone)
    ensures TokensArePlayers(r)
  {
    forall id: nat | id in r.players ensures HasToken(r.tokens, id) {
      var t :| t in st.tokens && st.tokens[t].id == id;
      assert t in r.tokens && r.tokens[t].id == id;
    }
  }

  // With tokens in bijection with players the scan drops exactly the tokens of the retired dogs.
  lemma DropIsExact(st: ServerState, ts: seq<TickChoice>, dropped: map<string, nat>, t: string)
    requires TokensArePlayers(st) && LegalDrop(st.tokens, ts, dropped) && t in st.tokens
    ensures t in dropped <==> RetiresIn(ts, st.tokens[t].id)
  {
    if RetiresIn(ts, st.tokens[t].id) {
      var i: nat :| Removes(ts, i, st.tokens[t].id);
      assert Scans(st.tokens, dropped, i, st.tokens[t].id);
    }
  }

  // A dog is listed for removal by its own session or not at all.
  lemma RetiresInItsSession(cfg: Config, st: ServerState, dt: nat, ts: seq<TickChoice>, i: int, id: nat)
    requires OneSessionPerMap(st.sessions) && DogsArePlayers(st) && LegalSessions(cfg, st, dt, ts) && Lives(st, i, id)
    ensures RetiresIn(ts, id) <==> Expires(cfg.retirement, st.sessions[i].dogs[id], dt)
  {
    assert LegalTick(st.sessions[i], cfg.retirement, dt, ts[i]);
    if Expires(cfg.retirement, st.sessions[i].dogs[id], dt) {
      assert Removes(ts, i, id);
    }
    if RetiresIn(ts, id) {
      var j: nat :| Removes(ts, j, id);
      ListedLives(cfg, st, dt, ts, j, id);
      SameMapSameSession(st, i, j);
    }
  }

  lemma ListedLives(cfg: Config, st: ServerState, dt: nat, ts: seq<TickChoice>, j: int, id: nat)
    requires LegalSessions(cfg, st, dt, ts) && 0 <= j < |ts| && Listed(ts[j].retirees, |ts[j].retirees|, id)
    ensures Lives(st, j, id) && Expires(cfg.retirement, st.sessions[j].dogs[id], dt)
  {
    var k :| 0 <= k < |ts[j].retirees| && ts[j].retirees[k].id == id;
    assert LegalRetirees(st.sessions[j], cfg.retirement, dt, ts[j].retirees);
    assert RetiresAs(st.sessions[j], cfg.retirement, dt, ts[j].retirees[k]);
  }

  lemma SameMapSameSession(st: ServerState, i: int, j: int)
    requires OneSessionPerMap(st.sessions) && 0 <= i < |st.sessions| && 0 <= j < |st.sessions| &&
        st.sessions[i].world.id == st.sessions[j].world.id
    ensures i == j
  {
  }

  lemma AdvanceAt(cfg: Config, st: ServerState, dt: nat, ts: seq<TickChoice>, dropped: map<string, nat>, i: nat)
    requires LegalSessions(cfg, st, dt, ts) && i < |st.sessions|
    ensures LegalTick(st.sessions[i], cfg.retirement, dt, ts[i]) && LegalRoutes(st.sessions[i], ts[i].routes)
    ensures |Advance(cfg, st, dt, ts, dropped).sessions| == |st.sessions|
    ensures Advance(cfg, st, dt, ts, dropped).sessions[i] == Ticked(st.sessions[i], dt, ts[i])
  {
  }

  lemma AdvanceLives(cfg: Config, st: ServerState, dt: nat, ts: seq<TickChoice>, dropped: map<string, nat>, i: int,
      id: nat)
    requires OneSessionPerMap(st.sessions) && DogsArePlayers(st) && LegalSessions(cfg, st, dt, ts)
    ensures var r := Advance(cfg, st, dt, ts, dropped);
            && |r.sessions| == |st.sessions|
            && (0 <= i < |st.sessions| ==> r.sessions[i].world == st.sessions[i].world)
            && (Lives(r, i, id) <==> Lives(st, i, id) && !RetiresIn(ts, id))
  {
    hide LegalTick, Ticked, RetiresIn, OneSessionPerMap, DogsArePlayers, LegalDraw, Expires, Advanced;
    if 0 <= i < |st.sessions| {
      AdvanceAt(cfg, st, dt, ts, dropped, i);
      TickFrame(st.sessions[i], dt, ts[i]);
      TickedDog(st.sessions[i], cfg.retirement, dt, ts[i], id);
      if Lives(st, i, id) {
        RetiresInItsSession(cfg, st, dt, ts, i, id);
      }
    }
  }

  lemma AdvanceIsWithout(cfg: Config, st: ServerState, dt: nat, ts: seq<TickChoice>, dropped: map<string, nat>)
    requires Indexed(st) && LegalSessions(cfg, st, dt, ts) && LegalDrop(st.tokens, ts, dropped)
    ensures Without(st, Advance(cfg, st, dt, ts, dropped), iset id: nat | RetiresIn(ts, id))
  {
    hide LegalSessions, LegalDrop, Ticked, RetiresIn, OneSessionPerMap, DogsArePlayers, TokensArePlayers, Lives;
    var r := Advance(cfg, st, dt, ts, dropped);
    assert |r.sessions| == |st.sessions| by { AdvanceLives(cfg, st, dt, ts, dropped, 0, 0); }
    forall i | 0 <= i < |st.sessions| ensures r.sessions[i].world == st.sessions[i].world {
      AdvanceLives(cfg, st, dt, ts, dropped, i, 0);
    }
    forall i, id: nat ensures Lives(r, i, id) <==> Lives(st, i, id) && !RetiresIn(ts, id) {
      AdvanceLives(cfg, st, dt, ts, dropped, i, id);
    }
    forall t | t in st.tokens ensures t in dropped <==> RetiresIn(ts, st.tokens[t].id) {
      DropIsExact(st, ts, dropped, t);
    }
  }

  // A tick takes its retired dogs out of all three indexes.
  lemma AdvanceIndexed(cfg: Config, st: ServerState, dt: nat, ts: seq<TickChoice>, dropped: map<string, nat>)
    requires Indexed(st) && LegalSessions(cfg, st, dt, ts) && LegalDrop(st.tokens, ts, dropped)
    ensures var r := Advance(cfg, st, dt, ts, dropped);
            Indexed(r) && r.players.Keys <= st.players.Keys && r.nextPlayer == st.nextPlayer
  {
    hide OneSessionPerMap, DogsArePlayers, TokensArePlayers, LegalSessions, LegalDrop;
    AdvanceIsWithout(cfg, st, dt, ts, dropped);
    var gone := iset id: nat | RetiresIn(ts, id);
    WithoutDogs(st, Advance(cfg, st, dt, ts, dropped), gone);
    WithoutTokens(st, Advance(cfg, st, dt, ts, dropped), gone);
  }

  // ---------- One action ----------

  lemma SteeringIndexed(st: ServerState, token: string, move: string)
    requires Indexed(st)
    ensures var r := Steering(st, token, move);
            Indexed(r) && r.players == st.players && r.nextPlayer == st.nextPlayer
  {
    hide Indexed;
    SameTablesIndexed(st, Steering(st, token, move));
  }

  lemma SavedIndexed(cfg: Config, st: ServerState, saved: seq<SaveSession>)
    requires Indexed(st)
    ensures Indexed(Saved(cfg, st, saved)) && Indexed(AutoSaved(cfg, st, saved))
  {
    hide Indexed;
    SameTablesIndexed(st, Saved(cfg, st, saved));
    SameTablesIndexed(st, AutoSaved(cfg, st, saved));
  }

  // A join meets an id not in use.
  ghost predicate FreshJoin(cfg: Config, st: ServerState, a: Action) {
    a.Join? && a.mapId in cfg.maps ==> st.nextPlayer !in st.players
  }

  lemma StepIndexed(cfg: Config, st: ServerState, a: Action)
    requires GoodConfig(cfg) && Indexed(st) && Legal(cfg, st, a) && !a.Restart? && FreshJoin(cfg, st, a)
    ensures var r := Step(cfg, st, a);
            Indexed(r) && r.players.Keys <= st.players.Keys + {st.nextPlayer} && st.nextPlayer <= r.nextPlayer
    ensures var r := Step(cfg, st, a);
            r.players.Keys <= st.players.Keys || r.nextPlayer == st.nextPlayer + 1
  {
    hide Indexed, Joined, Steering, Advance, LegalSessions, LegalDrop, Writes, SaveDue, GoodConfig, LegalJoin;
    match a
    case Join(name, mapId, spawn, token) =>
      if mapId in cfg.maps {
        JoinedIndexed(cfg, st, name, mapId, spawn, token);
      } else {
        JoinedNothing(cfg, st, name, mapId, spawn, token);
      }
    case Steer(token, move) => SteeringIndexed(st, token, move);
    case Tick(dt, ts, dropped, saved) =>
      AdvanceIndexed(cfg, st, dt, ts, dropped);
      SavedIndexed(cfg, Advance(cfg, st, dt, ts, dropped), saved);
    case Save(saved) => SavedIndexed(cfg, st, saved);
  }

  lemma JoinedNothing(cfg: Config, st: ServerState, name: string, mapId: string, spawn: Cell, token: string)
    requires mapId !in cfg.maps
    ensures Joined(cfg, st, name, mapId, spawn, token) == st
  {
  }

  // From a state in agreement every join is fresh, and agreement is kept.
  lemma StepAgrees(cfg: Config, st: ServerState, a: Action)
    requires GoodConfig(cfg) && Agrees(st) && Legal(cfg, st, a) && !a.Restart?
    ensures Agrees(Step(cfg, st, a)) && Step(cfg, st, a).nextPlayer >= st.nextPlayer && FreshJoin(cfg, st, a)
  {
    hide Indexed, Legal, Step, GoodConfig;
    StepIndexed(cfg, st, a);
  }

  // ---------- Whole runs ----------

  // Over every run of one server process from a state in agreement, such as the empty one, the three
  // indexes agree and the id counter never falls.
  lemma {:induction false} RunAgrees(cfg: Config, r: Run, m: nat, n: nat)
    requires GoodConfig(cfg) && IsRun(cfg, r) && NoRestart(r) && Agrees(r.states[0]) && m <= n < |r.states|
    ensures Agrees(r.states[n]) && r.states[n].nextPlayer >= r.states[m].nextPlayer
  {
    hide Agrees, Legal, Step, IsRun, GoodConfig, FreshJoin;
    if n > 0 {
      RunAgrees(cfg, r, if m < n then m else n - 1, n - 1);
      RunStep(cfg, r, n - 1);
      assert !r.actions[n - 1].Restart?;
      StepAgrees(cfg, r.states[n - 1], r.actions[n - 1]);
    }
  }

  ghost predicate JoinsAt(cfg: Config, r: Run, n: nat) {
    n < |r.actions| && r.actions[n].Join? && r.actions[n].mapId in cfg.maps
  }

  // No dog id is ever given out twice, not even after its dog has retired.
  lemma IdsNeverReused(cfg: Config, r: Run, m: nat, n: nat)
    requires GoodConfig(cfg) && IsRun(cfg, r) && NoRestart(r) && Agrees(r.states[0])
    requires m < n && JoinsAt(cfg, r, m) && JoinsAt(cfg, r, n)
    ensures n < |r.states| && r.states[m].nextPlayer < r.states[n].nextPlayer
    ensures r.states[n].nextPlayer !in r.states[n].players && forall i :: !Lives(r.states[n], i, r.states[n].nextPlayer)
  {
    hide Legal, Step, GoodConfig, OneSessionPerMap, TokensArePlayers;
    assert n < |r.states|;
    RunAgrees(cfg, r, m + 1, n);
    RunAgrees(cfg, r, m, m);
    RunStep(cfg, r, m);
    JoinCounts(cfg, r.states[m], r.actions[m]);
  }

  lemma JoinCounts(cfg: Config, st: ServerState, a: Action)
    requires Legal(cfg, st, a) && a.Join? && a.mapId in cfg.maps
    ensures Step(cfg, st, a).nextPlayer == st.nextPlayer + 1
  {
  }

  lemma FreshAgrees(cfg: Config)
    ensures Agrees(Fresh(cfg))
  {
  }
}
