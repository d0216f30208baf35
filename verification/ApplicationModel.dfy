/** The application object: sessions, tables, clocks, and the operations on them. */
module ApplicationModel {
  import opened Wrappers
  import opened Roads
  import opened Dogs
  import opened DogModel
  import opened DogSerialization
  import opened RoadIndex
  import opened Sessions
  import opened SessionModel
  import opened SessionTick
  import opened PlayerTables
  import opened Servers
  import opened Requests
  import opened Safety

  // ---------- The session list ----------

  ghost function Footprint(sessions: seq<GameSession>): set<object>
    reads sessions
  {
    set i, o | 0 <= i < |sessions| && o in sessions[i].Repr() :: o
  }

  ghost function SessionViews(sessions: seq<GameSession>): seq<SessionState>
    reads sessions, Footprint(sessions)
  {
    seq(|sessions|, i requires 0 <= i < |sessions| reads sessions, Footprint(sessions) => sessions[i].View())
  }

  ghost predicate AllValid(sessions: seq<GameSession>)
    reads sessions, set i | 0 <= i < |sessions| :: sessions[i].world
  {
    forall i :: 0 <= i < |sessions| ==> sessions[i].Valid()
  }

  // No two sessions share an object.
  ghost predicate Separate(sessions: seq<GameSession>)
    reads sessions
  {
    forall i, j :: 0 <= i < |sessions| && 0 <= j < |sessions| && i != j ==> sessions[i].Repr() !! sessions[j].Repr()
  }

  lemma {:induction false} FoundStays(ss: seq<SessionState>, mapId: string, m: nat, n: nat)
    requires m <= n <= |ss| && Servers.FindSession(ss, mapId, m).Some?
    ensures Servers.FindSession(ss, mapId, n) == Servers.FindSession(ss, mapId, m)
  {
    if m < n {
      FoundStays(ss, mapId, m, n - 1);
    }
  }

  lemma ReplacedSession(sessions: seq<GameSession>, views: seq<SessionState>, i: nat)
    requires i < |sessions| == |views|
    requires forall j :: 0 <= j < |sessions| && j != i ==> sessions[j].View() == views[j]
    ensures SessionViews(sessions) == views[i := sessions[i].View()]
  {
  }

  lemma SessionViewsAll(sessions: seq<GameSession>)
    ensures |SessionViews(sessions)| == |sessions|
    ensures forall i :: 0 <= i < |sessions| ==> SessionViews(sessions)[i] == sessions[i].View()
  {
  }

  lemma InFootprint(sessions: seq<GameSession>, i: nat)
    requires i < |sessions|
    ensures sessions[i] in sessions[i].Repr() && sessions[i].Repr() <= Footprint(sessions)
    ensures (set d: object | d in sessions[i].dogs.Values) <= Footprint(sessions)
  {
  }

  lemma DogInView(s: GameSession, id: nat)
    ensures id in s.dogs <==> id in s.View().dogs
  {
  }

  lemma AppendedSession(sessions: seq<GameSession>, views: seq<SessionState>)
    requires |sessions| == |views| + 1
    requires forall j :: 0 <= j < |views| ==> sessions[j].View() == views[j]
    ensures SessionViews(sessions) == views + [sessions[|views|].View()]
  {
  }

  lemma SpawnIsLegal(cfg: Config, st: ServerState, mapId: string, spawn: Cell, token: string)
    requires mapId in cfg.maps && token != "" && token !in st.tokens
    requires if cfg.randomizeSpawn then SpawnPoint(cfg.maps[mapId], spawn)
             else |cfg.maps[mapId].roads| > 0 && spawn == cfg.maps[mapId].roads[0].start
    ensures LegalJoin(cfg, st, mapId, spawn, token)
  {
  }

  lemma JoinedParts(cfg: Config, st: ServerState, name: string, mapId: string, spawn: Cell, token: string)
    requires mapId in cfg.maps
    ensures var m, id := cfg.maps[mapId], st.nextPlayer;
            var players := Emplace(st.players, id, Player(id, m.id));
            Joined(cfg, st, name, mapId, spawn, token) ==
              st.(sessions := WithDogAt(st.sessions, m, id, NewDog(spawn.ToVec(), m.speed, name, Capacity(m))),
                  players := players, tokens := st.tokens[token := players[id]], nextPlayer := id + 1)
  {
    hide WithDogAt, NewDog, Capacity;
  }

  // ---------- The loop over the sessions in a tick ----------

  // The first sessions have made their ticks; records holds what was written, gone the ids removed.
  ghost predicate TickedUpTo(cfg: Config, st: ServerState, dt: nat, views: seq<SessionState>, records: seq<Record>,
      ts: seq<TickChoice>, gone: iset<Removal>) {
    && |views| == |st.sessions| && |ts| <= |views|
    && (forall j :: 0 <= j < |ts| ==> TickedAt(cfg, st.sessions[j], dt, ts[j], views[j]))
    && (forall j :: |ts| <= j < |views| ==> views[j] == st.sessions[j])
    && records == st.records + AllRecords(ts, |ts|)
    && MadeBy(ts, gone)
  }

  // These are the removals that the sessions have made so far.
  ghost predicate MadeBy(ts: seq<TickChoice>, gone: iset<Removal>) {
    forall x :: x in gone <==> Removes(ts, x.session, x.id)
  }

  ghost predicate TickedAt(cfg: Config, s: SessionState, dt: nat, c: TickChoice, view: SessionState) {
    LegalDraw(s, c) && LegalTick(s, cfg.retirement, dt, c) && LegalRoutes(s, c.routes) && view == Ticked(s, dt, c)
  }

  lemma NothingTicked(cfg: Config, st: ServerState, dt: nat)
    ensures TickedUpTo(cfg, st, dt, st.sessions, st.records, [], iset{})
    ensures TablesWithout(st, st.players, st.tokens, iset{}, map[])
  {
  }

  lemma RemovesLater(ts: seq<TickChoice>, c: TickChoice, i: nat, id: nat)
    ensures Removes(ts + [c], i, id) <==> Removes(ts, i, id) || (i == |ts| && Listed(c.retirees, |c.retirees|, id))
  {
    hide Listed;
    assert i < |ts| ==> (ts + [c])[i] == ts[i];
  }

  lemma {:induction false} RecordsPrefix(ts: seq<TickChoice>, more: seq<TickChoice>, n: nat)
    requires n <= |ts|
    ensures AllRecords(ts + more, n) == AllRecords(ts, n)
  {
    hide RecordsOf;
    if n > 0 {
      RecordsPrefix(ts, more, n - 1);
      assert (ts + more)[n - 1] == ts[n - 1];
    }
  }

  lemma OneMoreMade(ts: seq<TickChoice>, gone: iset<Removal>, c: TickChoice)
    requires MadeBy(ts, gone)
    ensures MadeBy(ts + [c], gone + Removals(|ts|, c.retirees, |c.retirees|))
  {
    hide Removals, Removes, Listed;
    forall x ensures x in gone + Removals(|ts|, c.retirees, |c.retirees|) <==> Removes(ts + [c], x.session, x.id) {
      RemovesLater(ts, c, x.session, x.id);
      RemovalListed(|ts|, c.retirees, |c.retirees|, x);
    }
  }

  lemma OneMoreWritten(ts: seq<TickChoice>, c: TickChoice)
    ensures AllRecords(ts + [c], |ts| + 1) == AllRecords(ts, |ts|) + RecordsOf(c.retirees, |c.retirees|)
  {
    hide RecordsOf;
    RecordsPrefix(ts, [c], |ts|);
  }

  lemma TicksNext(cfg: Config, s: SessionState, dt: nat, c: TickChoice)
    requires LegalDraw(s, c) && LegalTick(s, cfg.retirement, dt, c) && LegalRoutes(s, c.routes)
    ensures TickedAt(cfg, s, dt, c, Ticked(s, dt, c))
  {
    hide LegalDraw, LegalTick, LegalRoutes, Ticked;
  }

  lemma OneMoreTicked(cfg: Config, st: ServerState, dt: nat, views: seq<SessionState>, records: seq<Record>,
      ts: seq<TickChoice>, gone: iset<Removal>, c: TickChoice, next: SessionState)
    requires TickedUpTo(cfg, st, dt, views, records, ts, gone) && |ts| < |views|
    requires TickedAt(cfg, views[|ts|], dt, c, next)
    ensures TickedUpTo(cfg, st, dt, views[|ts| := next], records + RecordsOf(c.retirees, |c.retirees|), ts + [c],
        gone + Removals(|ts|, c.retirees, |c.retirees|))
  {
    hide TickedAt, AllRecords, RecordsOf, Removals, MadeBy;
    OneMoreWritten(ts, c);
    OneMoreMade(ts, gone, c);
    var more := ts + [c];
    forall j | 0 <= j < |more| ensures TickedAt(cfg, st.sessions[j], dt, more[j], views[|ts| := next][j]) {
      assert j < |ts| ==> more[j] == ts[j] && TickedAt(cfg, st.sessions[j], dt, ts[j], views[j]);
    }
  }

  // When all sessions have made their ticks, the parts are those of the server's advance.
  lemma AllTicked(cfg: Config, st: ServerState, dt: nat, views: seq<SessionState>, records: seq<Record>,
                  players: map<nat, Player>, tokens: map<string, Player>, ts: seq<TickChoice>, gone: iset<Removal>,
                  dropped: map<string, nat>)
    requires TickedUpTo(cfg, st, dt, views, records, ts, gone) && |ts| == |views|
    requires TablesWithout(st, players, tokens, gone, dropped)
    ensures LegalSessions(cfg, st, dt, ts) && LegalDrop(st.tokens, ts, dropped)
    ensures Advance(cfg, st, dt, ts, dropped) ==
              st.(sessions := views, players := players, tokens := tokens, records := records,
                  serverTime := st.serverTime + dt)
  {
    hide LegalDraw, LegalTick, LegalRoutes, Ticked, AllRecords, RetiresIn, MadeBy, TokensWithout, Gone, LegalDrop;
    assert forall j :: 0 <= j < |ts| ==> TickedAt(cfg, st.sessions[j], dt, ts[j], views[j]);
    assert LegalSessions(cfg, st, dt, ts);
    var r := Advance(cfg, st, dt, ts, dropped);
    MadeDrops(st.tokens, tokens, ts, gone, dropped);
    MadeRetire(ts, gone);
    assert r.sessions == views;
    assert r.players == players;
  }

  lemma MadeDrops(before: map<string, Player>, tokens: map<string, Player>, ts: seq<TickChoice>, gone: iset<Removal>,
      dropped: map<string, nat>)
    requires TokensWithout(before, tokens, gone, dropped) && MadeBy(ts, gone)
    ensures LegalDrop(before, ts, dropped) && tokens == map t | t in before && t !in dropped :: before[t]
  {
    hide Removes, Scans;
    assert forall i: nat, id: nat :: Removal(i, id) in gone <==> Removes(ts, i, id);
  }

  lemma MadeRetire(ts: seq<TickChoice>, gone: iset<Removal>)
    requires MadeBy(ts, gone)
    ensures forall id: nat :: Gone(gone, id) <==> RetiresIn(ts, id)
  {
    hide Removes;
    assert forall i: nat, id: nat :: Removal(i, id) in gone <==> Removes(ts, i, id);
  }

  lemma TimeAdvances(cfg: Config, st: ServerState, dt: nat, ts: seq<TickChoice>, dropped: map<string, nat>)
    requires LegalSessions(cfg, st, dt, ts)
    ensures var r := Advance(cfg, st, dt, ts, dropped);
            r.serverTime == st.serverTime + dt && r.backupTime == st.backupTime
  {
  }

  // The removals that session i is about to make: each dog once, and none was made before.
  ghost predicate Upcoming(i: nat, rs: seq<Retiree>, gone: iset<Removal>) {
    && (forall x :: x in gone ==> x.session < i)
    && (forall j, k :: 0 <= j < k < |rs| ==> rs[j].id != rs[k].id)
  }

  lemma NotRemovedYet(i: nat, rs: seq<Retiree>, k: nat, gone: iset<Removal>)
    requires Upcoming(i, rs, gone) && k < |rs|
    ensures Removal(i, rs[k].id) !in gone + Removals(i, rs, k)
  {
    RemovalListed(i, rs, k, Removal(i, rs[k].id));
  }

  lemma RetireesUpcoming(s: SessionState, retirement: nat, dt: nat, c: TickChoice, i: nat, gone: iset<Removal>)
    requires LegalTick(s, retirement, dt, c) && forall x :: x in gone ==> x.session < i
    ensures Upcoming(i, c.retirees, gone)
  {
  }

  lemma RemovedNow(i: nat, rs: seq<Retiree>, gone: iset<Removal>)
    requires forall x :: x in gone ==> x.session < i
    ensures forall x :: x in gone + Removals(i, rs, |rs|) ==> x.session < i + 1
  {
    forall x | x in Removals(i, rs, |rs|) ensures x.session == i {
      RemovalListed(i, rs, |rs|, x);
    }
  }

  // A restored session's history begins with what it holds.
  method OpenBook(session: GameSession)
    requires session.Valid()
    modifies session
    ensures session.Valid() && session.View() == old(session.View()).(ledger := OpeningLedger(old(session.View())))
    ensures session.Repr() == old(session.Repr())
  {
    hide Apart, Views, OpeningLedger;
    session.ledger := OpeningLedger(session.View());
  }

  // The responses to a move request; the last one is the exception that leaves the request's handler.
  datatype MoveAnswer = Unauthorized | Moved | Thrown

  function AnswerTo(st: ServerState, token: string): MoveAnswer {
    if token !in st.tokens then Unauthorized else if Finds(st, token) then Moved else Thrown
  }

  lemma SteeredNobody(st: ServerState, i: nat, id: nat, move: string)
    requires i < |st.sessions| && id !in st.sessions[i].dogs
    ensures st.sessions[i := SteeredIn(st.sessions[i], id, move)] == st.sessions
  {
  }

  class Application {
    const cfg: Config
    const worlds: map<string, RoadMap>
    var sessions: seq<GameSession>
    const players: Players
    const playerTokens: PlayerTokens
    var serverTime: nat
    var backupTime: nat
    var records: seq<Record>
    var disk: Option<seq<SaveSession>>

    // A new process finds the records in the database and, perhaps, a state file.
    constructor (cfg: Config, worlds: map<string, RoadMap>, records: seq<Record>, disk: Option<seq<SaveSession>>)
      requires GoodConfig(cfg)
      requires forall id :: id in cfg.maps ==> id in worlds && worlds[id].config == cfg.maps[id] && worlds[id].Indexed()
      ensures Valid() && View() == Fresh(cfg).(records := records, disk := disk) && this.cfg == cfg && sessions == []
      ensures fresh(players) && fresh(playerTokens)
    {
      this.cfg, this.worlds, this.records, this.disk := cfg, worlds, records, disk;
      players := new Players();
      playerTokens := new PlayerTokens();
      sessions, serverTime, backupTime := [], 0, cfg.savePeriod;
    }

    ghost predicate Valid()
      reads this, worlds.Values, sessions, set i | 0 <= i < |sessions| :: sessions[i].world
    {
      && GoodConfig(cfg) && (forall id :: id in cfg.maps ==>
          id in worlds && worlds[id].config == cfg.maps[id] && worlds[id].Indexed())
      && AllValid(sessions) && Separate(sessions)
    }

    ghost function View(): ServerState
      reads this, players, playerTokens, sessions, Footprint(sessions)
    {
      ServerState(SessionViews(sessions), players.players, players.nextId, playerTokens.tokens, serverTime,
          backupTime, records, disk)
    }

    // Game::FindSession.
    method FindSession(mapId: string) returns (found: Option<nat>)
      requires Valid()
      ensures Valid() && SessionViews(sessions) == old(SessionViews(sessions)) && View() == old(View())
      ensures Footprint(sessions) == old(Footprint(sessions))
      ensures found == Servers.FindSession(SessionViews(sessions), mapId, |sessions|)
    {
      hide Views, Apart, RoadMap.Indexed, SessionViews, AllValid, Separate, Footprint;
      SessionViewsAll(sessions);
      for i := 0 to |sessions|
        invariant Servers.FindSession(SessionViews(sessions), mapId, i) == None
      {
        if sessions[i].world.config.id == mapId {
          FoundStays(SessionViews(sessions), mapId, i + 1, |sessions|);
          return Some(i);
        }
      }
      return None;
    }

    lemma OutsideSessions(ss: seq<GameSession>)
      ensures forall i :: 0 <= i < |ss| ==> this !in ss[i].Repr()
    {
    }

    method EmptySession(world: RoadMap) returns (session: GameSession)
      requires Valid() && world.Indexed() && WellFormed(world.config)
      ensures fresh(session) && fresh(session.generator) && session.Valid() && session.dogs == map[]
      ensures session.View() == NewSession(world.config) && SessionViews(sessions) == old(SessionViews(sessions))
      ensures Footprint(sessions) == old(Footprint(sessions)) && session !in Footprint(sessions) &&
          session.generator !in Footprint(sessions)
    {
      hide Views, Apart, NewSession, RoadMap.Indexed, GameSession.Valid, Separate, AllValid;
      assert forall o :: o in Footprint(sessions) ==> allocated(o);
      session := new GameSession(world);
      assert forall j :: 0 <= j < |sessions| ==> sessions[j].Repr() == old(sessions[j].Repr());
      assert Footprint(sessions) == old(Footprint(sessions));
    }

    // A new session with its first dog shares nothing with the others.
    method CreateSession(world: RoadMap, id: nat, dog: Dog) returns (session: GameSession)
      requires Valid() && world.Indexed() && WellFormed(world.config) && dog !in Footprint(sessions)
      ensures fresh(session) && session.Valid() &&
          session.View() == WithDog(NewSession(world.config), id, old(dog.View()))
      ensures fresh(session.Repr() - {dog}) && session !in Footprint(sessions) &&
          Footprint(sessions) == old(Footprint(sessions))
      ensures SessionViews(sessions) == old(SessionViews(sessions))
      ensures forall j :: 0 <= j < |sessions| ==> sessions[j].Repr() !! session.Repr()
    {
      hide Views, Apart, NewSession, RoadMap.Indexed, GameSession.Valid, GameSession.View, Separate, WithDog;
      session := EmptySession(world);
      session.AddDog(id, dog);
      assert session.dogs.Values == {dog};
      forall j: nat | j < |sessions| ensures sessions[j].Repr() !! session.Repr() {
        InFootprint(sessions, j);
      }
    }

    method AddNewSession(session: GameSession)
      requires Valid() && session.Valid() && forall j :: 0 <= j < |sessions| ==> sessions[j].Repr() !! session.Repr()
      modifies this`sessions
      ensures Valid() && sessions == old(sessions) + [session] &&
          Footprint(sessions) == old(Footprint(sessions)) + session.Repr()
      ensures SessionViews(sessions) == old(SessionViews(sessions)) + [old(session.View())]
    {
      hide Views, Apart, NewSession, RoadMap.Indexed, SessionViews, GameSession.View, GameSession.Valid;
      ghost var views := SessionViews(sessions);
      SessionViewsAll(sessions);
      OutsideSessions(sessions + [session]);
      sessions := sessions + [session];
      AppendedSession(sessions, views);
    }

    method OpenSession(world: RoadMap, id: nat, dog: Dog)
      requires Valid() && world.Indexed() && WellFormed(world.config) && dog !in Footprint(sessions)
      modifies this`sessions
      ensures Valid()
      ensures SessionViews(sessions) == old(SessionViews(sessions)) +
          [WithDog(NewSession(world.config), id, old(dog.View()))]
      ensures fresh(Footprint(sessions) - old(Footprint(sessions)) - {dog})
    {
      hide NewSession, RoadMap.Indexed, SessionViews, GameSession.Valid, Separate, WithDog, AllValid;
      var session := CreateSession(world, id, dog);
      AddNewSession(session);
    }

    method AddDogAt(i: nat, id: nat, dog: Dog)
      requires Valid() && i < |sessions| && dog !in Footprint(sessions)
      modifies sessions[i]
      ensures Valid()
      ensures SessionViews(sessions) == old(SessionViews(sessions))[i :=
          WithDog(old(sessions[i].View()), id, old(dog.View()))]
      ensures Footprint(sessions) <= old(Footprint(sessions)) + {dog}
    {
      hide Views, Apart, WithDog, GameSession.View, GameSession.Valid, RoadMap.Indexed, SessionViews;
      ghost var views := SessionViews(sessions);
      SessionViewsAll(sessions);
      assert sessions[i] in sessions[i].Repr();
      sessions[i].AddDog(id, dog);
      ReplacedSession(sessions, views, i);
    }

    // The dog joins the map's session, which is created if there is none.
    method SeatDog(world: RoadMap, id: nat, dog: Dog)
      requires Valid() && world.Indexed() && WellFormed(world.config) && dog !in Footprint(sessions)
      modifies this`sessions, Footprint(sessions)
      ensures Valid() && SessionViews(sessions) ==
          WithDogAt(old(SessionViews(sessions)), world.config, id, old(dog.View()))
      ensures fresh(Footprint(sessions) - old(Footprint(sessions)) - {dog})
    {
      hide Views, Apart, NewSession, WithDog, RoadMap.Indexed, GameSession.Valid, GameSession.View,
          Servers.FindSession, SessionViews, Separate, AllValid, Footprint, GameSession.Repr;
      SessionViewsAll(sessions);
      var found := FindSession(world.config.id);
      if found.None? {
        label Found:
        OpenSession(world, id, dog);
        forall o | o in Footprint(sessions) && o !in old(Footprint(sessions)) && o != dog ensures fresh(o) {
          assert fresh@Found(o);
        }
      } else {
        SessionViewsAll(sessions);
        InFootprint(sessions, found.value);
        AddDogAt(found.value, id, dog);
      }
    }

    // A random point of the map's roads, or the start of the first.
    method SpawnOn(world: RoadMap) returns (spawn: Cell)
      requires WellFormed(world.config)
      ensures if cfg.randomizeSpawn then SpawnPoint(world.config, spawn)
              else |world.config.roads| > 0 && spawn == world.config.roads[0].start
    {
      if cfg.randomizeSpawn {
        spawn := world.GetRandomCoordOnRoads();
      } else {
        spawn := world.config.roads[0].start;
      }
    }

    lemma OutsideFootprint()
      ensures this !in Footprint(sessions) && players !in Footprint(sessions) && playerTokens !in Footprint(sessions)
    {
    }

    // A new dog at a spawn point; the sessions stay as they are.
    method MakeDog(name: string, world: RoadMap) returns (spawn: Cell, dog: Dog)
      requires Valid() && WellFormed(world.config)
      ensures if cfg.randomizeSpawn then SpawnPoint(world.config, spawn)
              else |world.config.roads| > 0 && spawn == world.config.roads[0].start
      ensures fresh(dog) && dog.View() == NewDog(spawn.ToVec(), world.config.speed, name, Capacity(world.config))
      ensures Valid() && SessionViews(sessions) == old(SessionViews(sessions)) && dog !in Footprint(sessions)
      ensures Footprint(sessions) == old(Footprint(sessions))
    {
      hide NewDog, Capacity, Views, Apart, RoadMap.Indexed, SpawnPoint;
      spawn := SpawnOn(world);
      dog := new Dog(spawn.ToVec(), world.config.speed, name, Capacity(world.config));
    }

    method NextId() returns (id: nat)
      requires Valid()
      modifies players`nextId
      ensures Valid() && id == old(players.nextId) && players.nextId == id + 1
      ensures SessionViews(sessions) == old(SessionViews(sessions)) && Footprint(sessions) == old(Footprint(sessions))
    {
      hide Views, Apart, RoadMap.Indexed;
      OutsideFootprint();
      id := players.GetNextPlayerId();
    }

    method AddPlayer(id: nat, mapId: string) returns (player: Player)
      requires Valid()
      modifies players`players
      ensures Valid() && SessionViews(sessions) == old(SessionViews(sessions)) &&
          Footprint(sessions) == old(Footprint(sessions))
      ensures players.players == Emplace(old(players.players), id, Player(id, mapId)) && player == players.players[id]
    {
      hide Views, Apart, RoadMap.Indexed, Emplace;
      OutsideFootprint();
      player := players.Add(id, mapId);
    }

    method AddToken(player: Player, token: string)
      requires Valid()
      modifies playerTokens
      ensures Valid() && SessionViews(sessions) == old(SessionViews(sessions)) &&
          Footprint(sessions) == old(Footprint(sessions))
      ensures playerTokens.tokens == old(playerTokens.tokens)[token := player]
    {
      hide Views, Apart, RoadMap.Indexed;
      OutsideFootprint();
      playerTokens.AddPlayer(player, token);
    }

    // The player gets the next id and a token, which stands for a fresh draw of the token generators.
    method JoinGame(name: string, mapId: string, token: string) returns (id: nat, spawn: Cell)
      requires Valid() && mapId in cfg.maps && token != "" && token !in playerTokens.tokens
      modifies this`sessions, players, playerTokens, Footprint(sessions)
      ensures Valid() && LegalJoin(cfg, old(View()), mapId, spawn, token)
      ensures View() == Joined(cfg, old(View()), name, mapId, spawn, token) && id == old(players.nextId)
      ensures Unused(old(View()), cfg.maps[mapId].id, id) ==>
          HasJoined(old(View()), View(), cfg.maps[mapId], name, spawn, token)
      ensures fresh(Footprint(sessions) - old(Footprint(sessions)))
    {
      hide WithDogAt, Emplace, RoadMap.Indexed, AllValid, Separate, SessionViews, Footprint, LegalJoin, NewDog,
          Capacity, SpawnPoint, Joined, HasJoined, Unused;
      ghost var st := View();
      var world := worlds[mapId];
      var dog;
      spawn, dog := MakeDog(name, world);
      id := NextId();
      SpawnIsLegal(cfg, st, mapId, spawn, token);
      OutsideFootprint();
      label Seated:
      SeatDog(world, id, dog);
      forall o | o in Footprint(sessions) && o !in old(Footprint(sessions)) ensures fresh(o) {
        assert o == dog || fresh@Seated(o);
      }
      var player := AddPlayer(id, mapId);
      AddToken(player, token);
      JoinedParts(cfg, st, name, mapId, spawn, token);
      JoinedHasJoined(cfg, st, name, mapId, spawn, token);
    }

    // ---------- Steering ----------

    method SteerAt(i: nat, id: nat, move: string)
      requires Valid() && i < |sessions| && id in sessions[i].dogs
      modifies sessions[i].dogs[id]
      ensures Valid()
      ensures Footprint(sessions) == old(Footprint(sessions))
      ensures SessionViews(sessions) == old(SessionViews(sessions))[i := SteeredIn(old(sessions[i].View()), id, move)]
    {
      hide Apart, Views, SessionViews, Steered, RoadMap.Indexed, GameSession.View, GameSession.Valid;
      ghost var views := SessionViews(sessions);
      SessionViewsAll(sessions);
      DogInView(sessions[i], id);
      assert sessions[i].dogs[id] in sessions[i].Repr();
      SteerDog(sessions[i], id, move);
      ReplacedSession(sessions, views, i);
    }

    method FindPlayerByToken(token: string) returns (player: Option<Player>)
      requires Valid()
      ensures player == if token in playerTokens.tokens then Some(playerTokens.tokens[token]) else None
      ensures Valid() && View() == old(View()) && SessionViews(sessions) == old(SessionViews(sessions))
      ensures Footprint(sessions) == old(Footprint(sessions))
    {
      hide Views, Apart, RoadMap.Indexed;
      player := playerTokens.FindPlayerByToken(token);
    }

    // A player's request to move: the token finds the player, the player its session's dog. The dog is
    // looked up without a test; if it is not there the lookup throws.
    method Steer(token: string, move: string) returns (answer: MoveAnswer)
      requires Valid()
      modifies Footprint(sessions)
      ensures Valid() && View() == Steering(old(View()), token, move)
      ensures answer == AnswerTo(old(View()), token)
      ensures answer.Moved? ==>
          token in old(View()).tokens && TurnsDogOf(old(View()), View(), old(View()).tokens[token], move)
      ensures !answer.Moved? ==> View() == old(View())
      ensures Footprint(sessions) == old(Footprint(sessions))
    {
      hide Views, Apart, SessionViews, Steered, SteeredIn, RoadMap.Indexed, GameSession.View, GameSession.Valid,
          Servers.FindSession, Footprint, Separate, AllValid, TurnsDogOf;
      ghost var st := View();
      SessionViewsAll(sessions);
      OutsideFootprint();
      var player := FindPlayerByToken(token);
      if player.None? {
        return Unauthorized;
      }
      answer := Thrown;
      var found := FindSession(player.value.mapId);
      if found.Some? {
        InFootprint(sessions, found.value);
        var there := SteerFound(found.value, player.value.id, move);
        if there {
          answer := Moved;
          SteeringTurns(st, token, move);
        } else {
          SteeredNobody(st, found.value, player.value.id, move);
        }
      }
    }

    method SteerFound(i: nat, id: nat, move: string) returns (there: bool)
      requires Valid() && i < |sessions|
      modifies sessions[i].dogs.Values
      ensures Valid() && there == (id in old(SessionViews(sessions))[i].dogs)
      ensures Footprint(sessions) == old(Footprint(sessions))
      ensures SessionViews(sessions) == old(SessionViews(sessions))[i := SteeredIn(old(sessions[i].View()), id, move)]
    {
      hide Views, Apart, Steered, RoadMap.Indexed, GameSession.View, GameSession.Valid;
      DogInView(sessions[i], id);
      there := id in sessions[i].dogs;
      if there {
        SteerAt(i, id, move);
      } else {
        assert SessionViews(sessions)[i := sessions[i].View()] == SessionViews(sessions);
      }
    }

    // ---------- Saving ----------

    // One session's data: its dogs, each once, and every player's token.
    method SessionData(session: GameSession) returns (data: SaveSession)
      requires session.Valid()
      ensures IsSessionBackup(session.View(), playerTokens.tokens, data)
    {
      hide Apart, InverseOf, RoadMap.Indexed;
      var reprs, loots := SavedDogs(session);
      var inverse := TokensById();
      data := SaveSession(reprs, loots, inverse, session.world.config.id);
    }

    // The lost things are copied in the loop over the dogs.
    method SavedDogs(session: GameSession) returns (reprs: seq<DogRepr>, loots: map<nat, Loot>)
      requires session.Valid()
      ensures forall k :: 0 <= k < |reprs| ==>
          reprs[k].id in session.dogs && reprs[k] == ReprOf(reprs[k].id, session.dogs[reprs[k].id].View())
      ensures forall i, j :: 0 <= i < j < |reprs| ==> reprs[i].id != reprs[j].id
      ensures forall id: nat :: id in session.dogs ==> Saves(reprs, id)
      ensures loots == if |reprs| == 0 then map[] else session.loots
    {
      hide Apart, Views, RoadMap.Indexed;
      reprs, loots := [], map[];
      var order := AnyOrder(session.dogs.Keys);
      OrderEnumerates(order, session.dogs.Keys);
      for k := 0 to |order|
        invariant |reprs| == k && forall j :: 0 <= j < k ==>
            order[j] in session.dogs && reprs[j] == ReprOf(order[j], session.dogs[order[j]].View())
        invariant loots == if k == 0 then map[] else session.loots
      {
        var repr := Serialize(order[k], session.dogs[order[k]]);
        reprs := reprs + [repr];
        loots := session.loots;
      }
      forall id: nat | id in session.dogs ensures Saves(reprs, id) {
        var k :| 0 <= k < |order| && order[k] == id;
        assert reprs[k].id == id;
      }
    }

    // The later of two tokens of one player wins.
    method TokensById() returns (inverse: map<nat, string>)
      ensures InverseOf(playerTokens.tokens, inverse)
    {
      inverse := map[];
      var order := AnyOrder(playerTokens.tokens.Keys);
      for k := 0 to |order|
        invariant forall id: nat :: id in inverse ==>
            inverse[id] in playerTokens.tokens && playerTokens.tokens[inverse[id]].id == id
        invariant forall j :: 0 <= j < k ==>
            order[j] in playerTokens.tokens && playerTokens.tokens[order[j]].id in inverse
      {
        assert order[k] in order;
        inverse := inverse[playerTokens.tokens[order[k]].id := order[k]];
      }
    }

    // Nothing is saved without a state file.
    method BackUpData() returns (saved: seq<SaveSession>)
      requires Valid()
      modifies this`disk
      ensures Valid() && View() == Saved(cfg, old(View()), saved) && Writes(cfg, old(View()), saved)
      ensures Footprint(sessions) == old(Footprint(sessions))
    {
      hide SessionViews, AllValid, Separate, IsBackup;
      saved := [];
      if cfg.hasStateFile {
        saved := AllData();
        Store(saved);
      }
    }

    method Store(saved: seq<SaveSession>)
      requires Valid()
      modifies this`disk
      ensures Valid() && View() == old(View()).(disk := Some(saved))
      ensures Footprint(sessions) == old(Footprint(sessions))
    {
      hide Views, Apart, RoadMap.Indexed;
      OutsideFootprint();
      disk := Some(saved);
    }

    method AllData() returns (saved: seq<SaveSession>)
      requires Valid()
      ensures Valid() && IsBackup(View(), saved) && View() == old(View())
      ensures Footprint(sessions) == old(Footprint(sessions))
    {
      hide Views, Apart, IsSessionBackup, RoadMap.Indexed;
      saved := [];
      for i := 0 to |sessions|
        invariant |saved| == i && forall j :: 0 <= j < i ==>
            IsSessionBackup(sessions[j].View(), playerTokens.tokens, saved[j])
      {
        var data := SessionData(sessions[i]);
        saved := saved + [data];
      }
    }

    // ---------- Restoring ----------

    method RestoredObject(r: DogRepr) returns (dog: Dog)
      requires Valid()
      ensures fresh(dog) && dog.View() == RestoredDog(r) && dog !in Footprint(sessions)
      ensures Valid() && SessionViews(sessions) == old(SessionViews(sessions)) &&
          Footprint(sessions) == old(Footprint(sessions))
    {
      hide Views, Apart, RoadMap.Indexed, RestoredDog, ReprOf;
      var id;
      id, dog := Restore(r);
    }

    // The first dog of a saved session brings back the session's lost things.
    method RestoreSession(world: RoadMap, data: SaveSession, r: DogRepr, dog: Dog)
      requires Valid() && world.Indexed() && WellFormed(world.config) && dog !in Footprint(sessions)
      modifies this`sessions
      ensures Valid()
      ensures SessionViews(sessions) == old(SessionViews(sessions))
                + [WithDog(NewSession(world.config), r.id, old(dog.View())).(
                    loots := data.loots, lootIdIncr := |data.loots|)]
      ensures fresh(Footprint(sessions) - old(Footprint(sessions)) - {dog})
    {
      hide NewSession, RoadMap.Indexed, SessionViews, GameSession.Valid, GameSession.View, GameSession.Repr, Separate,
          WithDog, AllValid, Views, Apart, Footprint;
      var session := CreateSession(world, r.id, dog);
      RefillSession(session, data.loots);
      AddNewSession(session);
    }

    method RefillSession(session: GameSession, loots: map<nat, Loot>)
      requires Valid() && session.Valid() && session !in Footprint(sessions)
      modifies session
      ensures Valid() && session.Valid() &&
          session.View() == old(session.View()).(loots := loots, lootIdIncr := |loots|)
      ensures session.Repr() == old(session.Repr()) && SessionViews(sessions) == old(SessionViews(sessions))
      ensures Footprint(sessions) == old(Footprint(sessions))
      ensures forall j :: 0 <= j < |sessions| ==> sessions[j].Repr() == old(sessions[j].Repr())
    {
      hide Views, Apart, RoadMap.Indexed, GameSession.Valid, Separate, AllValid;
      session.RestoreLoot(loots);
    }

    method HomeDog(world: RoadMap, data: SaveSession, r: DogRepr)
      requires Valid() && data.mapId in cfg.maps && world == worlds[data.mapId]
      modifies this`sessions, Footprint(sessions)
      ensures Valid() && SessionViews(sessions) == Homed(old(SessionViews(sessions)), world.config, data, r)
      ensures fresh(Footprint(sessions) - old(Footprint(sessions)))
    {
      hide RestoredDog, RoadMap.Indexed, SessionViews, Separate, AllValid, Footprint, Homed;
      var dog := RestoredObject(r);
      ghost var before := Footprint(sessions);
      label Before:
      HomeObject(world, data, r, dog);
      forall o | o in Footprint(sessions) && o !in old(Footprint(sessions)) ensures fresh(o) {
        assert o in before || o == dog || fresh@Before(o);
      }
    }

    method HomeObject(world: RoadMap, data: SaveSession, r: DogRepr, dog: Dog)
      requires Valid() && data.mapId in cfg.maps && world == worlds[data.mapId]
      requires dog !in Footprint(sessions) && dog.View() == RestoredDog(r)
      modifies this`sessions, Footprint(sessions)
      ensures Valid() && SessionViews(sessions) == Homed(old(SessionViews(sessions)), world.config, data, r)
      ensures fresh(Footprint(sessions) - old(Footprint(sessions)) - {dog})
    {
      hide Views, Apart, NewSession, WithDog, RestoredDog, RoadMap.Indexed, GameSession.Valid, GameSession.View,
          Servers.FindSession, SessionViews, Separate, AllValid, Footprint;
      SessionViewsAll(sessions);
      var found := FindSession(world.config.id);
      if found.None? {
        label Found:
        RestoreSession(world, data, r, dog);
        forall o | o in Footprint(sessions) && o !in old(Footprint(sessions)) && o != dog ensures fresh(o) {
          assert fresh@Found(o);
        }
      } else {
        InFootprint(sessions, found.value);
        AddDogAt(found.value, r.id, dog);
      }
    }

    method RestoreToken(token: string, player: Player)
      requires Valid()
      modifies playerTokens
      ensures Valid() && SessionViews(sessions) == old(SessionViews(sessions)) &&
          Footprint(sessions) == old(Footprint(sessions))
      ensures playerTokens.tokens == old(playerTokens.tokens)[token := player]
    {
      hide Views, Apart, RoadMap.Indexed;
      OutsideFootprint();
      playerTokens.RestorePlayerWithToken(token, player);
    }

    // One saved dog: its session, its player and its token.
    method RestoreEntry(world: RoadMap, data: SaveSession, r: DogRepr)
      requires Valid() && data.mapId in cfg.maps && world == worlds[data.mapId]
      modifies this`sessions, players`players, playerTokens, Footprint(sessions)
      ensures Valid() && SessionViews(sessions) == Homed(old(SessionViews(sessions)), world.config, data, r)
      ensures players.players == Emplace(old(players.players), r.id, Player(r.id, data.mapId)) &&
          players.nextId == old(players.nextId)
      ensures playerTokens.tokens == old(playerTokens.tokens)[TokenOf(data, r.id) := players.players[r.id]]
      ensures fresh(Footprint(sessions) - old(Footprint(sessions)))
    {
      hide SessionViews, AllValid, Separate, Footprint, Homed, Emplace, RoadMap.Indexed;
      OutsideFootprint();
      HomeDog(world, data, r);
      var player := AddPlayer(r.id, data.mapId);
      RestoreToken(TokenOf(data, r.id), player);
    }

    method RestoreDogs(world: RoadMap, data: SaveSession)
      requires Valid() && data.mapId in cfg.maps && world == worlds[data.mapId]
      modifies this`sessions, players`players, playerTokens, Footprint(sessions)
      ensures Valid() && SessionViews(sessions) ==
          HomedDogs(old(SessionViews(sessions)), world.config, data, |data.dogs|)
      ensures players.players == SeatedDogs(old(players.players), data, |data.dogs|) &&
          players.nextId == old(players.nextId)
      ensures playerTokens.tokens == TokenedDogs(old(playerTokens.tokens), old(players.players), data, |data.dogs|)
      ensures fresh(Footprint(sessions) - old(Footprint(sessions)))
    {
      hide SessionViews, AllValid, Separate, Footprint, Homed, RoadMap.Indexed;
      for n := 0 to |data.dogs|
        invariant Valid() && SessionViews(sessions) == HomedDogs(old(SessionViews(sessions)), world.config, data, n)
        invariant players.players == SeatedDogs(old(players.players), data, n) && players.nextId == old(players.nextId)
        invariant playerTokens.tokens == TokenedDogs(old(playerTokens.tokens), old(players.players), data, n)
        invariant fresh(Footprint(sessions) - old(Footprint(sessions)))
      {
        ghost var before := Footprint(sessions);
        label Before:
        RestoreEntry(world, data, data.dogs[n]);
        forall o | o in Footprint(sessions) && o !in old(Footprint(sessions)) ensures fresh(o) {
          assert o in before - old(Footprint(sessions)) || fresh@Before(o);
        }
      }
    }

    // All saved sessions in turn; the id counter restarts at the number of players.
    method RestoreAll(saved: seq<SaveSession>)
      requires Valid() && Restorable(cfg, saved)
      modifies this`sessions, players, playerTokens, Footprint(sessions)
      ensures Valid() && View() == Restored(cfg, old(View()), saved)
      ensures fresh(Footprint(sessions) - old(Footprint(sessions)))
    {
      hide SessionViews, AllValid, Separate, Footprint, HomedDogs, SeatedDogs, TokenedDogs, RoadMap.Indexed, GoodConfig;
      OutsideFootprint();
      for n := 0 to |saved|
        invariant Valid() && SessionViews(sessions) == HomedAll(cfg, old(SessionViews(sessions)), saved, n)
        invariant players.players == SeatedAll(old(players.players), saved, n) && players.nextId == old(players.nextId)
        invariant playerTokens.tokens == TokenedAll(old(playerTokens.tokens), old(players.players), saved, n)
        invariant fresh(Footprint(sessions) - old(Footprint(sessions)))
      {
        ghost var before := Footprint(sessions);
        label Before:
        RestoreDogs(worlds[saved[n].mapId], saved[n]);
        forall o | o in Footprint(sessions) && o !in old(Footprint(sessions)) ensures fresh(o) {
          assert o in before - old(Footprint(sessions)) || fresh@Before(o);
        }
      }
      RestartIds();
    }

    method RestartIds()
      requires Valid()
      modifies players`nextId
      ensures Valid() && SessionViews(sessions) == old(SessionViews(sessions)) && players.nextId == |players.players|
      ensures Footprint(sessions) == old(Footprint(sessions))
    {
      hide Views, Apart, RoadMap.Indexed;
      OutsideFootprint();
      players.RestorePlayerIdIncr();
    }

    method OpenBookAt(i: nat)
      requires Valid() && i < |sessions|
      modifies sessions[i]
      ensures Valid() && Footprint(sessions) == old(Footprint(sessions))
      ensures var s := old(sessions[i].View());
              SessionViews(sessions) == old(SessionViews(sessions))[i := s.(ledger := OpeningLedger(s))]
    {
      hide Apart, Views, SessionViews, RoadMap.Indexed, GameSession.View, GameSession.Valid, OpeningLedger;
      ghost var views := SessionViews(sessions);
      SessionViewsAll(sessions);
      assert sessions[i] in sessions[i].Repr();
      OpenBook(sessions[i]);
      assert forall j :: 0 <= j < |sessions| ==> sessions[j].Repr() == old(sessions[j].Repr());
      ReplacedSession(sessions, views, i);
    }

    method OpenBooks()
      requires Valid()
      modifies Footprint(sessions)
      ensures Valid() && View() == Opened(old(View())) && Footprint(sessions) == old(Footprint(sessions))
    {
      hide SessionViews, AllValid, Separate, Footprint, GameSession.View, GameSession.Repr, OpeningLedger;
      OutsideFootprint();
      ghost var views := SessionViews(sessions);
      SessionViewsAll(sessions);
      for i := 0 to |sessions|
        invariant Valid() && Footprint(sessions) == old(Footprint(sessions)) && |SessionViews(sessions)| == |sessions|
        invariant forall j :: 0 <= j < i ==> SessionViews(sessions)[j] == views[j].(ledger := OpeningLedger(views[j]))
        invariant forall j :: i <= j < |sessions| ==> SessionViews(sessions)[j] == views[j]
      {
        SessionViewsAll(sessions);
        InFootprint(sessions, i);
        OpenBookAt(i);
      }
    }

    // At the start of the process: nothing happens without a state file that holds something.
    method RestoreBackUpData()
      requires Valid() && (cfg.hasStateFile && disk.Some? ==> Restorable(cfg, disk.value))
      modifies this`sessions, players, playerTokens, Footprint(sessions)
      ensures Valid()
      ensures View() ==
              if cfg.hasStateFile && old(disk).Some? then Opened(Restored(cfg, old(View()), old(disk).value))
              else old(View())
      ensures fresh(Footprint(sessions) - old(Footprint(sessions)))
    {
      hide SessionViews, AllValid, Separate, Footprint, HomedAll, SeatedAll, TokenedAll, Restorable, Opened;
      OutsideFootprint();
      if cfg.hasStateFile && disk.Some? {
        RestoreAll(disk.value);
        OpenBooks();
      }
    }

    // ---------- The tick ----------

    method RunAt(i: nat, dt: nat) returns (retirees: seq<Retiree>, ghost c: TickChoice)
      requires Valid() && i < |sessions|
      modifies sessions[i].Repr()
      ensures Valid() && sessions == old(sessions) && Footprint(sessions) == old(Footprint(sessions))
      ensures LegalDraw(old(sessions[i].View()), c) && LegalTick(old(sessions[i].View()), cfg.retirement, dt, c)
      ensures LegalRoutes(old(sessions[i].View()), c.routes) && retirees == c.retirees
      ensures SessionViews(sessions) == old(SessionViews(sessions))[i := Gathered(old(sessions[i].View()), dt, c)]
    {
      hide Apart, Views, SessionViews, RoadMap.Indexed, GameSession.View, GameSession.Valid, LegalTick, LegalDraw,
          LegalRoutes, Gathered, GoodConfig;
      ghost var views := SessionViews(sessions);
      SessionViewsAll(sessions);
      OutsideSessions(sessions);
      retirees, c := RunSession(sessions[i], cfg.retirement, dt);
      assert forall j :: 0 <= j < |sessions| ==> sessions[j].Repr() == old(sessions[j].Repr());
      ReplacedSession(sessions, views, i);
    }

    method RetireAt(i: nat, r: Retiree)
      requires Valid() && i < |sessions|
      modifies sessions[i]
      ensures Valid() && Footprint(sessions) <= old(Footprint(sessions)) &&
          sessions[i].Repr() <= old(sessions[i].Repr())
      ensures SessionViews(sessions) == old(SessionViews(sessions))[i := Removed(old(sessions[i].View()), r)]
    {
      hide Apart, Views, SessionViews, RoadMap.Indexed, GameSession.View, GameSession.Valid, Removed;
      ghost var views := SessionViews(sessions);
      SessionViewsAll(sessions);
      assert sessions[i] in sessions[i].Repr();
      Retire(sessions[i], r);
      ReplacedSession(sessions, views, i);
    }

    method DropToken(id: nat)
      requires Valid()
      modifies playerTokens
      ensures Valid() && SessionViews(sessions) == old(SessionViews(sessions)) &&
          Footprint(sessions) == old(Footprint(sessions))
      ensures Scanned(old(playerTokens.tokens), playerTokens.tokens, id)
    {
      hide Views, Apart, RoadMap.Indexed, Scanned;
      OutsideFootprint();
      playerTokens.RemovePlayer(id);
    }

    method DropPlayer(id: nat)
      requires Valid()
      modifies players`players
      ensures Valid() && SessionViews(sessions) == old(SessionViews(sessions)) &&
          Footprint(sessions) == old(Footprint(sessions))
      ensures players.players == Erase(old(players.players), id)
    {
      hide Views, Apart, RoadMap.Indexed, Erase;
      OutsideFootprint();
      players.RemovePlayerById(id);
    }

    // The removal loop: each retired dog leaves its session, the token table and the player table.
    method RemoveRetired(i: nat, rs: seq<Retiree>, ghost st: ServerState, ghost gone: iset<Removal>,
        ghost before: map<string, nat>)
      returns (ghost dropped: map<string, nat>)
      requires Valid() && i < |sessions| && TablesWithout(st, players.players, playerTokens.tokens, gone, before)
      requires Upcoming(i, rs, gone)
      modifies sessions[i], players`players, playerTokens
      ensures Valid() && Footprint(sessions) <= old(Footprint(sessions))
      ensures SessionViews(sessions) == old(SessionViews(sessions))[i :=
          AllRemoved(old(SessionViews(sessions))[i], rs, |rs|)]
      ensures TablesWithout(st, players.players, playerTokens.tokens, gone + Removals(i, rs, |rs|), dropped)
    {
      hide SessionViews, AllValid, Separate, Footprint, Removed, TablesWithout, Scanned, GameSession.View,
          GameSession.Repr;
      dropped := before;
      SessionViewsAll(sessions);
      ghost var views := SessionViews(sessions);
      assert views[i := views[i]] == views && gone + Removals(i, rs, 0) == gone;
      for k := 0 to |rs|
        invariant Valid() && Footprint(sessions) <= old(Footprint(sessions))
        invariant SessionViews(sessions) == views[i := AllRemoved(views[i], rs, k)]
        invariant TablesWithout(st, players.players, playerTokens.tokens, gone + Removals(i, rs, k), dropped)
      {
        SessionViewsAll(sessions);
        RetireAt(i, rs[k]);
        ghost var tokens, table := playerTokens.tokens, players.players;
        DropToken(rs[k].id);
        DropPlayer(rs[k].id);
        NotRemovedYet(i, rs, k, gone);
        dropped := OneMoreGone(st, table, tokens, playerTokens.tokens, gone + Removals(i, rs, k), dropped,
            Removal(i, rs[k].id));
        assert gone + Removals(i, rs, k + 1) == gone + Removals(i, rs, k) + iset{Removal(i, rs[k].id)};
      }
    }

    method Record(rs: seq<Retiree>)
      requires Valid()
      modifies this`records
      ensures Valid() && SessionViews(sessions) == old(SessionViews(sessions)) &&
          Footprint(sessions) == old(Footprint(sessions))
      ensures records == old(records) + RecordsOf(rs, |rs|)
    {
      hide Views, Apart, RoadMap.Indexed;
      OutsideFootprint();
      for k := 0 to |rs|
        invariant records == old(records) + RecordsOf(rs, k)
      {
        records := records + [rs[k].record];
      }
    }

    // One session's part of the tick.
    method TickSession(i: nat, dt: nat, ghost st: ServerState, ghost gone: iset<Removal>,
        ghost before: map<string, nat>)
      returns (ghost c: TickChoice, ghost dropped: map<string, nat>)
      requires Valid() && i < |sessions| && TablesWithout(st, players.players, playerTokens.tokens, gone, before)
      requires forall x :: x in gone ==> x.session < i
      modifies this`records, players`players, playerTokens, Footprint(sessions)
      ensures Valid() && sessions == old(sessions) && Footprint(sessions) <= old(Footprint(sessions))
      ensures LegalDraw(old(SessionViews(sessions))[i], c) &&
          LegalTick(old(SessionViews(sessions))[i], cfg.retirement, dt, c)
      ensures LegalRoutes(old(SessionViews(sessions))[i], c.routes)
      ensures SessionViews(sessions) == old(SessionViews(sessions))[i := Ticked(old(SessionViews(sessions))[i], dt, c)]
      ensures records == old(records) + RecordsOf(c.retirees, |c.retirees|)
      ensures TablesWithout(st, players.players, playerTokens.tokens, gone + Removals(i, c.retirees, |c.retirees|),
          dropped)
    {
      hide SessionViews, AllValid, Separate, Footprint, TablesWithout, GameSession.View, GameSession.Repr, LegalDraw,
          LegalTick, LegalRoutes, Gathered, Removals, RecordsOf, Upcoming;
      OutsideFootprint();
      SessionViewsAll(sessions);
      InFootprint(sessions, i);
      var retirees;
      retirees, c := RunAt(i, dt);
      Record(retirees);
      InFootprint(sessions, i);
      RetireesUpcoming(old(SessionViews(sessions))[i], cfg.retirement, dt, c, i, gone);
      dropped := RemoveRetired(i, retirees, st, gone, before);
    }

    method TickSessions(dt: nat) returns (ghost ts: seq<TickChoice>, ghost dropped: map<string, nat>)
      requires Valid()
      modifies this`records, players`players, playerTokens, Footprint(sessions)
      ensures Valid() && LegalSessions(cfg, old(View()), dt, ts) && LegalDrop(old(View()).tokens, ts, dropped)
      ensures View() == Advance(cfg, old(View()), dt, ts, dropped).(serverTime := old(serverTime))
      ensures Footprint(sessions) <= old(Footprint(sessions))
    {
      hide SessionViews, AllValid, Separate, Footprint, TablesWithout, GameSession.View, GameSession.Repr, TickedUpTo,
          LegalSessions, LegalDrop, Advance, AllRecords, RecordsOf, Ticked;
      OutsideFootprint();
      ghost var st := View();
      SessionViewsAll(sessions);
      ts, dropped := [], map[];
      ghost var gone: iset<Removal> := iset{};
      NothingTicked(cfg, st, dt);
      for i := 0 to |sessions|
        invariant Valid() && sessions == old(sessions) && Footprint(sessions) <= old(Footprint(sessions))
        invariant |SessionViews(sessions)| == |sessions| && |ts| == i
        invariant TickedUpTo(cfg, st, dt, SessionViews(sessions), records, ts, gone)
        invariant TablesWithout(st, players.players, playerTokens.tokens, gone, dropped)
        invariant forall x :: x in gone ==> x.session < i
      {
        ghost var views, written := SessionViews(sessions), records;
        OutsideFootprint();
        ghost var c;
        c, dropped := TickSession(i, dt, st, gone, dropped);
        TicksNext(cfg, views[i], dt, c);
        OneMoreTicked(cfg, st, dt, views, written, ts, gone, c, Ticked(views[i], dt, c));
        RemovedNow(i, c.retirees, gone);
        ts, gone := ts + [c], gone + Removals(i, c.retirees, |c.retirees|);
      }
      AllTicked(cfg, st, dt, SessionViews(sessions), records, players.players, playerTokens.tokens, ts, gone, dropped);
    }

    method SetTimes(server: nat, backup: nat)
      requires Valid()
      modifies this`serverTime, this`backupTime
      ensures Valid() && View() == old(View()).(serverTime := server, backupTime := backup)
      ensures Footprint(sessions) == old(Footprint(sessions))
    {
      hide Views, Apart, RoadMap.Indexed;
      OutsideFootprint();
      serverTime, backupTime := server, backup;
    }

    // Application::Tick: every session in turn, then the clock and the automatic backup. The choices
    // the containers, the index, the sort and the random numbers made are those of a legal action, and
    // the new state is what that action makes of the old one.
    method Tick(dt: nat) returns (ghost action: Action)
      requires Valid()
      modifies this`records, this`serverTime, this`backupTime, this`disk, players`players, playerTokens,
          Footprint(sessions)
      ensures Valid() && action.Tick? && action.dt == dt
      ensures Legal(cfg, old(View()), action) && View() == Step(cfg, old(View()), action)
      ensures Footprint(sessions) <= old(Footprint(sessions))
    {
      hide SessionViews, AllValid, Separate, Footprint, LegalSessions, LegalDrop, Advance, Writes, Saved;
      OutsideFootprint();
      ghost var st := View();
      ghost var ts, dropped := TickSessions(dt);
      ghost var r := Advance(cfg, st, dt, ts, dropped);
      TimeAdvances(cfg, st, dt, ts, dropped);
      var saved: seq<SaveSession> := [];
      SetTimes(serverTime + dt, backupTime);
      if backupTime > 0 && serverTime >= backupTime {
        SetTimes(serverTime, serverTime + cfg.savePeriod);
        ghost var due := View();
        saved := BackUpData();
        WritesAnyTime(cfg, due, r.backupTime, saved);
      }
      action := Action.Tick(dt, ts, dropped, saved);
    }
  }
}
