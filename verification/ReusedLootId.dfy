/** A run in which a restart makes the server give the id of a lost thing out twice. */
module ReusedLootId {
  import opened Wrappers
  import opened Collision
  import opened Gather
  import opened Dogs
  import opened Sessions
  import opened Custody
  import opened Servers
  import opened SaveRestore
  import opened DiskHistory
  import opened LootIds
  import opened Street
  import Accounting
  import Autosave

  // Rex finds thing 0 on his way.
  const FIND := Event(0, 0, 0.0, 1.0)

  function Finding(): TickChoice { TickChoice(1.0, [Thing(1.0)], [0], map[0 := [0]], [WayTo(1.0)], [FIND], []) }

  function Finder(): DogState { Walker().(coord := At(1.0), lifeTime := 500, bag := [BagItem(0, 0)]) }

  function Found(): SessionState {
    SessionState(Map(), map[0 := Finder()], map[], 1, 0, EMPTY_LEDGER.(placed := multiset{BagItem(0, 0)}))
  }

  function RexFound(): ServerState { RexWalks().(sessions := [Found()], serverTime := 500) }

  lemma FindingMeets()
    ensures IsGathering([WayTo(1.0)], [Lying(1.0), Office()], [FIND])
  {
    hide TryCollectPoint, IsGathering;
    MeetsOnWay(1.0, 1.0, 1.0, 1.0, 1.0);
    MeetsOnWay(1.0, 2.0, 4.0, 2.0, 1.0);
    assert Project(1.0, 1.0, 1.0) == CollectionResult(0.0, 1.0);
    assert Project(4.0, 2.0, 1.0) == CollectionResult(0.0, 2.0);
    Meets(WayTo(1.0), Lying(1.0), Office(), [FIND]);
  }

  lemma FindingDraws()
    ensures var s := LootGenerated(Walking(), 500, Finding().drawn);
            s == Walking().(loots := map[0 := Thing(1.0)], lootIdIncr := 1, ledger := Found().ledger)
    ensures LegalDraw(Walking(), Finding()) && LegalLoot(Map(), Thing(1.0))
  {
    hide Walker, LegalLoot;
    ThingIsLegal(1);
    OneIsDrawn(Walking(), Finding());
    assert AllPlaced(Walking(), Finding().drawn, 0) == Walking();
  }

  lemma FindingSweeps()
    ensures LegalRoutes(Walking(), Finding().routes)
    ensures LegalSweeps(Walking(), 500, Finding().routes, Finding().sweeps)
    ensures LegalRetirees(Walking(), 60000, 500, [])
  {
    StreetRoutes(Walking(), Finding().routes);
    RexAdvances(500, 1.0);
    hide Sweep, LegalRoutes, Advanced;
    assert Finding().sweeps[0].id == 0;
  }

  lemma FindingIsLegal()
    ensures LegalTick(Walking(), 60000, 500, Finding()) && LegalRoutes(Walking(), Finding().routes)
  {
    hide LegalSweeps, LegalRoutes, LegalRetirees, IsGathering, LegalLoot, LootGenerated, OfficeItems, LootItems;
    FindingDraws();
    FindingSweeps();
    WalkItems();
    FindingMeets();
  }

  lemma FindingTakes()
    ensures LegalRoutes(Walking(), Finding().routes) && Ticked(Walking(), 500, Finding()) == Found()
  {
    hide Advanced, LegalRoutes, LegalSweeps, LegalRetirees, LegalLoot, LegalDraw, LootGenerated;
    FindingSweeps();
    FindingDraws();
    RexAdvances(500, 1.0);
    var s := MovedIn(Walking(), 500, Finding());
    assert s.dogs == map[0 := Finder().(bag := [])];
    assert AfterEvents(s, [FIND], 1) == Handled(AfterEvents(s, [FIND], 0), FIND) == PickedUp(s, 0, 0) == Found() by {
      assert [] + [BagItem(0, 0)] == [BagItem(0, 0)];
      assert s.dogs[0 := Finder()] == map[0 := Finder()];
      assert Erase(map[0 := Thing(1.0)], 0) == map[];
    }
  }

  const FINDS := Tick(500, [Finding()], map[], [])

  lemma RexFinds()
    ensures Follows(Town(60000), RexWalks(), FINDS, RexFound())
  {
    hide LegalTick, LegalDraw, LegalRoutes, RetiresIn, Ticked, Found, Walking;
    FindingIsLegal();
    FindingDraws();
    FindingTakes();
    NobodyRetires([Finding()]);
    var ts := [Finding()];
    assert AllRecords(ts, 1) == [] by { assert RecordsOf(ts[0].retirees, 0) == []; }
    assert Step(Town(60000), RexWalks(), FINDS).sessions == [Found()];
  }
  function FoundData(): seq<SaveSession> {
    [SaveSession([ReprOf(0, Finder())], map[], map[0 := "a"], "street")]
  }

  function FoundSaved(): ServerState { RexFound().(disk := Some(FoundData())) }

  lemma FoundIsSaved()
    ensures IsBackup(FoundSaved(), FoundData())
    ensures Follows(Town(60000), RexFound(), Save(FoundData()), FoundSaved())
  {
    hide Finder, Found;
    var data := FoundData()[0];
    assert Found().dogs == map[0 := Finder()] && Found().loots == map[] && Found().world == Map() by { FoundHas(); }
    assert data.dogs[0].id == 0 && Saves(data.dogs, 0);
    assert IsSessionBackup(Found(), RexFound().tokens, data);
  }

  lemma FoundHas()
    ensures Found().dogs == map[0 := Finder()] && Found().loots == map[] && Found().world == Map()
  {
  }

  // The session as it comes back: its id counter is the number of things on the ground, none.
  predicate FoundRestored(s: SessionState) {
    s.world == Map() && s.dogs == map[0 := Survivor(Finder())] && s.loots == map[] && s.lootIdIncr == 0
  }

  lemma KeptIsRestored(t: SessionState, l: Ledger)
    requires t == Kept(Found()).(ledger := l)
    ensures FoundRestored(t)
  {
  }

  lemma FoundComesBack()
    ensures Legal(Town(60000), FoundSaved(), Restart)
    ensures var ss := Step(Town(60000), FoundSaved(), Restart).sessions; |ss| == 1 && FoundRestored(ss[0])
  {
    hide Kept, OpeningLedger, IsBackup, Found, Step;
    var st := FoundSaved();
    FoundHas();
    FoundIsSaved();
    BackupRestorable(Town(60000), st, FoundData());
    RestartSessions(Town(60000), st, st);
    assert 0 in st.sessions[0].dogs;
    assert KeptSessions(st.sessions, 1) == KeptSessions(st.sessions, 0) + [Kept(Found())];
    var back := Step(Town(60000), st, Restart).sessions[0];
    KeptIsRestored(back, back.ledger);
  }

  // The next tick, in which no time passes, draws one more thing.
  function Drawing(): TickChoice { Waits(1.0, [Thing(5.0)], [0], map[0 := [0]], []) }

  const DRAWS := Tick(0, [Drawing()], map[], [])

  lemma FinderStands()
    ensures Still(Survivor(Finder()), 0)
  {
  }

  lemma DrawingIsLegal(t: SessionState)
    requires FoundRestored(t)
    ensures LegalTick(t, 60000, 0, Drawing()) && LegalDraw(t, Drawing())
  {
    hide LegalLoot, LegalRoutes, Finder;
    FinderStands();
    FinderIsHere();
    StreetRoutes(t, Drawing().routes);
    ThingIsLegal(5);
    OneIsDrawn(t, Drawing());
    DrawingPlaces(t);
    assert LegalRetirees(t, 60000, 0, []);
    WaitingIsLegal(t, 60000, 0, Drawing());
  }

  lemma FinderIsHere()
    ensures Survivor(Finder()).coord == At(1.0) && Survivor(Finder()).stopTime == 0
    ensures Survivor(Finder()).bag == [BagItem(0, 0)]
  {
  }

  lemma DrawingPlaces(t: SessionState)
    requires t.loots == map[] && t.lootIdIncr == 0
    ensures LootGenerated(t, 0, Drawing().drawn).loots == map[0 := Thing(5.0)]
  {
    assert AllPlaced(Waited(t, 0, [Thing(5.0)]), [Thing(5.0)], 0) == Waited(t, 0, [Thing(5.0)]);
  }

  lemma DrawnTwice(t: SessionState)
    requires FoundRestored(t)
    ensures LegalRoutes(t, Drawing().routes)
    ensures var s := Ticked(t, 0, Drawing());
            0 in s.loots && 0 in s.dogs && s.dogs[0].bag == [BagItem(0, 0)]
  {
    hide LegalTick, LegalDraw, Finder, LegalRoutes, LootGenerated;
    DrawingIsLegal(t);
    RoutesOf(t, 60000, 0, Drawing());
    FinderStands();
    FinderIsHere();
    DrawingPlaces(t);
    assert Ticked(t, 0, Drawing()) == MovedIn(t, 0, Drawing());
    MovedDog(t, 0, Drawing(), 0);
    AdvancedKeeps(t.world.roads, t.dogs[0], 0, [0]);
  }
  lemma DrawsIsLegal(st: ServerState)
    requires |st.sessions| == 1 && FoundRestored(st.sessions[0]) && st.backupTime == 0
    ensures Legal(Town(60000), st, DRAWS)
  {
    hide LegalTick, LegalDraw, FoundRestored, RetiresIn;
    DrawingIsLegal(st.sessions[0]);
    NobodyRetires([Drawing()]);
  }

  // Thing 0 is found and carried, the server is restarted, and the next thing drawn is thing 0 again: it
  // lies on the ground and is in Rex's bag.
  lemma ThingDrawnTwice() returns (r: Run)
    ensures GoodConfig(Town(60000)) && IsRun(Town(60000), r) && r.states[0] == Fresh(Town(60000))
    ensures |r.states| == 7 && |r.states[6].sessions| == 1
    ensures var s := r.states[6].sessions[0]; 0 in s.loots && 0 in s.dogs && s.dogs[0].bag == [BagItem(0, 0)]
    ensures !FreshPlacements(r, 6)
  {
    hide Legal, Step, Follows, RexJoined, RexWalks, RexFound, FoundSaved, FoundRestored, FreshPlacements, Found;
    var cfg := Town(60000);
    var back := RexBack();
    var last := RexDraws(back);
    r := Run([Fresh(cfg), RexJoined(), RexWalks(), RexFound(), FoundSaved(), back, last],
             [Joins("Rex", "a"), GO, FINDS, Save(FoundData()), Restart, DRAWS]);
    RexJoins(60000);
    RexSetsOut(60000);
    RexFinds();
    FoundIsSaved();
    assert StepsAt(cfg, r, 0) && StepsAt(cfg, r, 1) && StepsAt(cfg, r, 2) && StepsAt(cfg, r, 3);
    assert StepsAt(cfg, r, 4) && StepsAt(cfg, r, 5);
    TownIsGood(60000);
    NotFresh(r);
  }

  lemma RexBack() returns (back: ServerState)
    ensures Follows(Town(60000), FoundSaved(), Restart, back)
    ensures |back.sessions| == 1 && FoundRestored(back.sessions[0]) && back.backupTime == 0
  {
    hide Legal, Step, FoundSaved, Found, FoundRestored, Town;
    FoundComesBack();
    back := Step(Town(60000), FoundSaved(), Restart);
    Ends(Town(60000), FoundSaved(), Restart);
    Autosave.RestartTimes(Town(60000), FoundSaved(), Restart);
    assert Town(60000).savePeriod == 0 by { NoAutosave(); }
  }

  lemma NoAutosave()
    ensures Town(60000).savePeriod == 0
  {
  }

  lemma RexDraws(back: ServerState) returns (last: ServerState)
    requires |back.sessions| == 1 && FoundRestored(back.sessions[0]) && back.backupTime == 0
    ensures Follows(Town(60000), back, DRAWS, last) && |last.sessions| == 1
    ensures var s := last.sessions[0]; 0 in s.loots && 0 in s.dogs && s.dogs[0].bag == [BagItem(0, 0)]
  {
    hide Legal, Step, FoundRestored, LegalTick, LegalDraw;
    DrawsIsLegal(back);
    last := Step(Town(60000), back, DRAWS);
    Ends(Town(60000), back, DRAWS);
    TickStep(Town(60000), back, DRAWS, 0);
    DrawnTwice(back.sessions[0]);
  }

  lemma TwoPlaces(s: SessionState)
    requires Conserved(s) && 0 in s.loots && 0 in s.dogs && s.dogs[0].bag == [BagItem(0, 0)]
    ensures !EachInOnePlace(s)
  {
    var x, y := BagItem(0, s.loots[0].kind), BagItem(0, 0);
    GroundDrop(s.loots, 0);
    DogDrop(s.dogs, 0);
    assert multiset(s.dogs[0].bag)[y] == 1;
    if EachInOnePlace(s) {
      PlacedOnlyOnce(s, x, y);
    }
  }

  // So the condition for ids in one place fails in this run, as it must.
  lemma NotFresh(r: Run)
    requires IsRun(Town(60000), r) && r.states[0] == Fresh(Town(60000)) && |r.states| == 7
    requires |r.states[6].sessions| == 1
    requires var s := r.states[6].sessions[0]; 0 in s.loots && 0 in s.dogs && s.dogs[0].bag == [BagItem(0, 0)]
    ensures !FreshPlacements(r, 6)
  {
    hide IsRun, FreshPlacements, EachInOnePlace;
    TownIsGood(60000);
    Accounting.RunConserved(Town(60000), r, 6);
    TwoPlaces(r.states[6].sessions[0]);
    if FreshPlacements(r, 6) {
      RunInOnePlace(Town(60000), r, 6);
    }
  }
}
