/** A run in which a restart makes the server give the id of a player out twice. */
module ReusedPlayerId {
  import opened Wrappers
  import opened Roads
  import opened Dogs
  import opened Sessions
  import opened Servers
  import opened Agreement
  import opened SaveRestore
  import opened AfterRestart
  import opened Street
  import LootGeneration

  function Idle(name: string, ms: nat): DogState { Newcomer(name).(lifeTime := ms, stopTime := ms) }

  function Waiting(routes: map<nat, seq<nat>>, retirees: seq<Retiree>): TickChoice {
    Waits(0.0, [], [], routes, retirees)
  }

  function Passes(routes: map<nat, seq<nat>>, retirees: seq<Retiree>, dropped: map<string, nat>): Action {
    Tick(500, [Waiting(routes, retirees)], dropped, [])
  }

  // A tick in which every dog stands still where it joined.
  lemma WaitingTicks(s: SessionState, retirement: nat, dt: nat, routes: map<nat, seq<nat>>, rs: seq<Retiree>)
    requires s.world == Map() && s.loots == map[] && LegalRetirees(s, retirement, dt, rs)
    requires forall id: nat :: id in s.dogs ==>
        id in routes && routes[id] == [0] && s.dogs[id].coord == At(0.0) && s.dogs[id].speed == ZERO
    ensures LegalTick(s, retirement, dt, Waiting(routes, rs)) && LegalDraw(s, Waiting(routes, rs))
    ensures LegalRoutes(s, routes) && MovedIn(s, dt, Waiting(routes, rs)) ==
        s.(waiting := s.waiting + dt,
           dogs := map id: nat | id in s.dogs ::
             s.dogs[id].(lifeTime := s.dogs[id].lifeTime + dt, stopTime := s.dogs[id].stopTime + dt))
    ensures Gathered(s, dt, Waiting(routes, rs)) == MovedIn(s, dt, Waiting(routes, rs))
  {
    hide LegalRetirees, IsQuery, Moved, Still;
    StreetRoutes(s, routes);
    forall id: nat | id in s.dogs ensures Still(s.dogs[id], dt) {
      StandsStill(s.dogs[id], dt);
    }
    LootGeneration.GeneratedWithinShortage(0.0, |s.loots|, |s.dogs|);
    WaitingIsLegal(s, retirement, dt, Waiting(routes, rs));
    AllAge(s.(waiting := s.waiting + dt), dt, routes);
  }

  lemma AllAge(s: SessionState, dt: nat, routes: map<nat, seq<nat>>)
    requires AllStill(s, dt) && LegalRoutes(s, routes)
    ensures Moved(s, dt, routes) ==
        s.(dogs := map id: nat | id in s.dogs ::
             s.dogs[id].(lifeTime := s.dogs[id].lifeTime + dt, stopTime := s.dogs[id].stopTime + dt))
  {
    hide Still, Advanced;
    forall id: nat | id in s.dogs
      ensures Advanced(s.world.roads, s.dogs[id], dt, routes[id]) ==
          s.dogs[id].(lifeTime := s.dogs[id].lifeTime + dt, stopTime := s.dogs[id].stopTime + dt)
    {
      AdvancedStill(s.world.roads, s.dogs[id], dt, routes[id]);
    }
  }

  lemma StandsStill(d: DogState, dt: nat)
    requires d.coord == At(0.0) && d.speed == ZERO
    ensures Still(d, dt)
  {
  }

  function Both(first: DogState, second: DogState): map<nat, DogState> { map[0 := first, 1 := second] }

  function Rests(dogs: map<nat, DogState>, ms: nat): SessionState { NewSession(Map()).(dogs := dogs, waiting := ms) }

  function RexRests(): ServerState { RexJoined().(sessions := [Rests(map[0 := Idle("Rex", 500)], 500)],
      serverTime := 500) }

  const REX := Player(0, "street")
  const ADA := Player(1, "street")

  function AdaJoined(): ServerState {
    ServerState([Rests(Both(Idle("Rex", 500), Newcomer("Ada")), 500)], map[0 := REX, 1 := ADA], 2,
                map["a" := REX, "b" := ADA], 500, 0, [], None)
  }

  const LEAVES := Retiree(0, Record("Rex", 0, 1000))

  function OnlyAda(): SessionState {
    Rests(map[1 := Idle("Ada", 500)], 1000)
  }

  function RexRetired(): ServerState {
    ServerState([OnlyAda()], map[1 := ADA], 2, map["b" := ADA], 1000, 0, [LEAVES.record], None)
  }

  lemma RexRestsFirst()
    ensures Follows(Town(1000), RexJoined(), Passes(map[0 := [0]], [], map[]), RexRests())
  {
    hide LegalTick, LegalDraw, LegalRoutes, RetiresIn, Gathered, MovedIn;
    var s, c := Alone(), Waiting(map[0 := [0]], []);
    assert LegalRetirees(s, 1000, 500, []);
    WaitingTicks(s, 1000, 500, map[0 := [0]], []);
    assert Ticked(s, 500, c) == Rests(map[0 := Idle("Rex", 500)], 500);
    NobodyRetires([c]);
    assert AllRecords([c], 1) == [] by { assert RecordsOf([c][0].retirees, 0) == []; }
    assert Step(Town(1000), RexJoined(), Passes(map[0 := [0]], [], map[])).sessions == RexRests().sessions;
  }

  lemma AdaJoins()
    ensures Follows(Town(1000), RexRests(), Joins("Ada", "b"), AdaJoined())
  {
    assert FindSession(RexRests().sessions, "street", 1) == Some(0);
    assert Emplace(map[0 := Idle("Rex", 500)], 1, Newcomer("Ada")) == Both(Idle("Rex", 500), Newcomer("Ada"));
    assert Emplace(map[0 := REX], 1, ADA) == map[0 := REX, 1 := ADA];
  }
  const RETIRES := Passes(map[0 := [0], 1 := [0]], [LEAVES], map["a" := 0])

  lemma RexRetires()
    ensures Follows(Town(1000), AdaJoined(), RETIRES, RexRetired())
  {
    hide LegalTick, LegalDraw, LegalRoutes, RetiresIn, Ticked, AllRecords, OnlyAda, AdaJoined, RexRetired;
    AdaWaits();
    RexIsDropped();
    OnlyRexRetires(Waiting(map[0 := [0], 1 := [0]], [LEAVES]));
    TickTables();
  }

  // What a tick in which only Rex leaves makes of the tables.
  lemma TickTables()
    requires LegalSessions(Town(1000), AdaJoined(), 500, RETIRES.ts)
    requires forall id: nat :: RetiresIn(RETIRES.ts, id) <==> id == 0
    requires AllRecords(RETIRES.ts, 1) == [LEAVES.record]
    requires LegalRoutes(AdaJoined().sessions[0], RETIRES.ts[0].routes)
    requires Ticked(AdaJoined().sessions[0], 500, RETIRES.ts[0]) == OnlyAda()
    ensures AutoSaved(Town(1000), Advance(Town(1000), AdaJoined(), 500, RETIRES.ts, map["a" := 0]), []) == RexRetired()
    ensures !SaveDue(Advance(Town(1000), AdaJoined(), 500, RETIRES.ts, map["a" := 0]))
  {
    hide LegalSessions, RetiresIn, Ticked, AllRecords, OnlyAda, LegalRoutes;
    var next := Advance(Town(1000), AdaJoined(), 500, RETIRES.ts, map["a" := 0]);
    assert next.sessions == [OnlyAda()];
    assert next.players == map[1 := ADA];
    assert next.tokens == map["b" := ADA];
  }

  lemma RexIsDropped()
    ensures LegalDrop(AdaJoined().tokens, RETIRES.ts, map["a" := 0])
  {
    hide RetiresIn;
    OnlyRexRetires(RETIRES.ts[0]);
  }

  lemma AdaWaits()
    ensures LegalSessions(Town(1000), AdaJoined(), 500, RETIRES.ts)
    ensures LegalRoutes(AdaJoined().sessions[0], RETIRES.ts[0].routes)
    ensures Ticked(AdaJoined().sessions[0], 500, RETIRES.ts[0]) == OnlyAda()
  {
    hide LegalTick, LegalDraw, LegalRoutes, Gathered, MovedIn, OnlyAda;
    var s, c := AdaJoined().sessions[0], RETIRES.ts[0];
    RexExpires(s);
    WaitingTicks(s, 1000, 500, map[0 := [0], 1 := [0]], [LEAVES]);
    RexLeaves(s, c);
  }

  lemma RexExpires(s: SessionState)
    requires s == AdaJoined().sessions[0]
    ensures LegalRetirees(s, 1000, 500, [LEAVES])
  {
    StandsStill(Idle("Rex", 500), 500);
    StandsStill(Newcomer("Ada"), 500);
    assert [LEAVES][0].id == 0;
    assert Listed([LEAVES], 1, 0);
  }

  lemma RexLeaves(s: SessionState, c: TickChoice)
    requires s == AdaJoined().sessions[0] && c.retirees == [LEAVES] && LegalRoutes(s, c.routes)
    requires Gathered(s, 500, c) == s.(waiting := 1000, dogs := Both(Idle("Rex", 1000), Idle("Ada", 500)))
    ensures Ticked(s, 500, c) == OnlyAda()
  {
    hide Gathered, LegalRoutes;
    RoutesInRange(s, c.routes);
    EmptyHandedLeaves(Gathered(s, 500, c));
  }

  lemma EmptyHandedLeaves(g: SessionState)
    requires g == Rests(Both(Idle("Rex", 1000), Idle("Ada", 500)), 1000)
    ensures AllRemoved(g, [LEAVES], 1) == OnlyAda()
  {
    hide Removed, Erase;
    OneRemoved(g, LEAVES);
    EmptyHanded(g, LEAVES);
    RexErased();
  }

  lemma OneRemoved(s: SessionState, r: Retiree)
    ensures AllRemoved(s, [r], 1) == Removed(s, r)
  {
    hide Removed;
    assert AllRemoved(s, [r], 0) == s;
  }

  lemma EmptyHanded(s: SessionState, r: Retiree)
    requires r.id in s.dogs && s.dogs[r.id].bag == [] && r.record.score == 0
    ensures Removed(s, r) == s.(dogs := Erase(s.dogs, r.id))
  {
    assert multiset(s.dogs[r.id].bag) == multiset{};
  }

  lemma RexErased()
    ensures Erase(Both(Idle("Rex", 1000), Idle("Ada", 500)), 0) == map[1 := Idle("Ada", 500)]
  {
    hide Idle;
  }

  lemma OnlyRexRetires(c: TickChoice)
    requires c.retirees == [LEAVES]
    ensures forall id: nat :: RetiresIn([c], id) <==> id == 0
    ensures AllRecords([c], 1) == [LEAVES.record]
  {
    assert [c][0].retirees[0].id == 0;
    assert Listed([c][0].retirees, 1, 0);
    assert Removes([c], 0, 0);
    assert RecordsOf([LEAVES], 0) == [] && RecordsOf([LEAVES], 1) == [LEAVES.record];
    assert AllRecords([c], 0) == [];
  }

  function AdaData(): seq<SaveSession> { [SaveSession([ReprOf(1, Idle("Ada", 500))], map[], map[1 := "b"], "street")] }

  function AdaSaved(): ServerState { RexRetired().(disk := Some(AdaData())) }

  lemma AdaIsSaved()
    ensures IsBackup(AdaSaved(), AdaData())
    ensures Follows(Town(1000), RexRetired(), Save(AdaData()), AdaSaved())
  {
    hide Idle;
    var data := AdaData()[0];
    assert data.dogs[0].id == 1 && Saves(data.dogs, 1);
    assert IsSessionBackup(OnlyAda(), RexRetired().tokens, data);
  }

  lemma AdaIndexed()
    ensures Indexed(AdaSaved()) && Configured(Town(1000), AdaSaved())
  {
    hide Idle;
    var st := AdaSaved();
    assert Lives(st, 0, 1);
    assert forall i, id: nat :: Lives(st, i, id) ==> i == 0 && id == 1;
    assert "b" in st.tokens && st.tokens["b"].id == 1;
  }

  lemma AdaKept()
    ensures KeptSessions(AdaSaved().sessions, 1) == [Kept(OnlyAda())]
  {
    hide Kept, Idle;
    assert 1 in OnlyAda().dogs;
    assert KeptSessions(AdaSaved().sessions, 0) == [];
  }

  // Ada's dog alone on the street, its timers cleared, and nothing lying about.
  predicate AdaRestored(s: SessionState) {
    s.world == Map() && s.loots == map[] && s.dogs == map[1 := Survivor(Idle("Ada", 500))]
  }

  lemma KeptIsRestored(t: SessionState, l: Ledger)
    requires t == Kept(OnlyAda()).(ledger := l)
    ensures AdaRestored(t)
  {
  }

  // After the restart the counter is the number of players, and that is Ada's id.
  lemma AdaBack() returns (back: ServerState)
    ensures Follows(Town(1000), AdaSaved(), Restart, back) && Indexed(back)
    ensures back.players == map[1 := ADA] && back.nextPlayer == 1 && back.tokens == map["b" := ADA]
    ensures |back.sessions| == 1 && AdaRestored(back.sessions[0]) && back.backupTime == 0
  {
    hide Indexed, Configured, IsBackup, Kept, Restored, KeptSessions, Restorable, OpeningLedger, AdaData,
        OnlyAda;
    var cfg, st := Town(1000), AdaSaved();
    AdaIsSaved();
    AdaIndexed();
    var empty := Fresh(cfg).(records := st.records, disk := st.disk);
    RoundTrip(cfg, st, AdaData(), empty);
    back := Step(cfg, st, Restart);
    RestartIndexed(cfg, st);
    AdaKept();
    assert back.sessions[0] == KeptSessions(st.sessions, 1)[0].(ledger :=
        OpeningLedger(KeptSessions(st.sessions, 1)[0]));
    KeptIsRestored(back.sessions[0], back.sessions[0].ledger);
    assert back.nextPlayer == |map[1 := ADA]| == 1;
  }

  const BOB := Joins("Bob", "c")

  lemma BobJoins(back: ServerState) returns (last: ServerState)
    requires Indexed(back)
    requires back.players == map[1 := ADA] && back.nextPlayer == 1 && back.tokens == map["b" := ADA]
    requires |back.sessions| == 1 && AdaRestored(back.sessions[0]) && back.backupTime == 0
    ensures Follows(Town(1000), back, BOB, last) && !Indexed(last)
    ensures last.tokens == map["b" := ADA, "c" := ADA] && last.backupTime == 0
    ensures |last.sessions| == 1 && AdaRestored(last.sessions[0])
  {
    hide Indexed, WithDogAt, GoodConfig, AdaRestored;
    TownIsGood(1000);
    last := Step(Town(1000), back, BOB);
    NoNewDog(back.sessions, Newcomer("Bob"));
    JoinedHijacks(Town(1000), back, "Bob", "street", Cell(0, 0), "c");
  }

  // Ada's dog has Bob's id: no dog is added.
  lemma NoNewDog(sessions: seq<SessionState>, d: DogState)
    requires |sessions| == 1 && AdaRestored(sessions[0])
    ensures WithDogAt(sessions, Map(), 1, d) == sessions
  {
    FindSessionIsFirst(sessions, "street", 1);
    assert 1 in sessions[0].dogs;
  }

  // Rex and Ada join, Rex retires, the server is restarted, and Bob, who joins next, gets Ada's id: his
  // token belongs to Ada's player.
  lemma PlayerIdTwice() returns (r: Run)
    ensures GoodConfig(Town(1000)) && IsRun(Town(1000), r) && r.states[0] == Fresh(Town(1000)) && |r.states| == 8
    ensures Indexed(r.states[6]) && !Indexed(r.states[7]) && !FreshJoins(Town(1000), r, 7)
    ensures r.states[7].tokens == map["b" := ADA, "c" := ADA]
    ensures var st := r.states[7]; st.backupTime == 0 && |st.sessions| == 1 && AdaRestored(st.sessions[0])
  {
    hide AdaRestored, OnlyAda, Legal, Step, Follows, Indexed, RexJoined, RexRests, AdaJoined, RexRetired, AdaSaved,
        FreshJoins;
    var cfg := Town(1000);
    var back := AdaBack();
    var last := BobJoins(back);
    var rests := Passes(map[0 := [0]], [], map[]);
    r := Run([Fresh(cfg), RexJoined(), RexRests(), AdaJoined(), RexRetired(), AdaSaved(), back, last],
             [Joins("Rex", "a"), rests, Joins("Ada", "b"), RETIRES, Save(AdaData()), Restart, BOB]);
    RexJoins(1000);
    RexRestsFirst();
    AdaJoins();
    RexRetires();
    AdaIsSaved();
    assert StepsAt(cfg, r, 0) && StepsAt(cfg, r, 1) && StepsAt(cfg, r, 2) && StepsAt(cfg, r, 3);
    assert StepsAt(cfg, r, 4) && StepsAt(cfg, r, 5) && StepsAt(cfg, r, 6);
    TownIsGood(1000);
    if FreshJoins(cfg, r, 7) {
      RunIndexed(cfg, r, 7);
    }
  }
}
