/** Why the retirement time has to be positive: with a limit of zero a moving dog retires too. */
module ZeroLimit {
  import opened Wrappers
  import Sums
  import opened Collision
  import opened Gather
  import opened Dogs
  import opened Sessions
  import opened Custody
  import opened Servers
  import opened Accounting
  import opened Street

  // The record saved for r is the one the dog's state after the tick's events would give.
  ghost predicate RecordFinal(s: SessionState, dt: nat, c: TickChoice, r: Retiree) {
    LegalRoutes(s, c.routes) && r.id in Gathered(s, dt, c).dogs && r.record == RecordOf(Gathered(s, dt, c).dogs[r.id])
  }

  // Dog x on the list of those that session k retires in action n of a run with this retirement time.
  ghost predicate RetiresAt(cfg: Config, retirement: nat, r: Run, n: nat, k: nat, x: nat) {
    && GoodConfig(cfg) && cfg.retirement == retirement && IsRun(cfg, r) && r.states[0] == Fresh(cfg)
    && n < |r.actions| && r.actions[n].Tick? && k < |r.states[n].sessions| && k < |r.actions[n].ts|
    && x < |r.actions[n].ts[k].retirees|
  }

  // In every run every record saved is final.
  ghost predicate AllRecordsFinal(retirement: nat) {
    forall cfg, r: Run, n: nat, k: nat, x: nat :: RetiresAt(cfg, retirement, r, n, k, x) ==>
      RecordFinal(r.states[n].sessions[k], r.actions[n].dt, r.actions[n].ts[k], r.actions[n].ts[k].retirees[x])
  }

  lemma FinalWhenPositive(cfg: Config, retirement: nat, r: Run, n: nat, k: nat, x: nat)
    requires retirement > 0 && RetiresAt(cfg, retirement, r, n, k, x)
    ensures RecordFinal(r.states[n].sessions[k], r.actions[n].dt, r.actions[n].ts[k], r.actions[n].ts[k].retirees[x])
  {
    hide Step, LegalDraw;
    StepsOn(cfg, r, n);
    RunStep(cfg, r, n);
    var s, a := r.states[n].sessions[k], r.actions[n];
    TickStep(cfg, r.states[n], a, k);
    RecordIsFinal(s, retirement, a.dt, a.ts[k], a.ts[k].retirees[x]);
  }

  // ---------- With limit 0 ----------

  // On his first walk Rex comes upon a thing that was drawn in that tick, and then upon the office.
  const FIND := Event(0, 0, 0.0, 0.5)
  const VISIT := Event(FIRST_OFFICE_ID, 0, 0.0, 1.0)

  function Walk(): TickChoice {
    TickChoice(1.0, [Thing(1.0)], [0], map[0 := [0]], [WayTo(2.0)], [FIND, VISIT], [Retiree(0, Record("Rex", 0, 1000))])
  }

  lemma WalkMeets()
    ensures IsGathering([WayTo(2.0)], [Lying(1.0), Office()], [FIND, VISIT])
  {
    hide TryCollectPoint, IsGathering;
    MeetsOnWay(2.0, 1.0, 1.0, 2.0, 4.0);
    MeetsOnWay(2.0, 2.0, 4.0, 4.0, 4.0);
    assert Project(1.0, 2.0, 4.0) == CollectionResult(0.0, 0.5);
    assert Project(4.0, 4.0, 4.0) == CollectionResult(0.0, 1.0);
    Meets(WayTo(2.0), Lying(1.0), Office(), [FIND, VISIT]);
  }

  lemma WalkDraws()
    ensures LootGenerated(Walking(), 1000, Walk().drawn).loots == map[0 := Thing(1.0)]
    ensures LegalDraw(Walking(), Walk()) && LegalLoot(Map(), Thing(1.0))
  {
    hide Walker, LegalLoot;
    ThingIsLegal(1);
    OneIsDrawn(Walking(), Walk());
    assert AllPlaced(Walking(), Walk().drawn, 0) == Walking();
  }

  lemma WalkSweeps()
    ensures LegalRoutes(Walking(), Walk().routes)
    ensures LegalSweeps(Walking(), 1000, Walk().routes, Walk().sweeps)
    ensures LegalRetirees(Walking(), 0, 1000, Walk().retirees)
  {
    StreetRoutes(Walking(), Walk().routes);
    RexAdvances(1000, 2.0);
    hide Sweep, LegalRoutes, Advanced;
    assert Walk().sweeps[0].id == 0 && Walk().retirees[0].id == 0;
  }

  lemma WalkIsLegal()
    ensures LegalTick(Walking(), 0, 1000, Walk())
  {
    hide LegalSweeps, LegalRoutes, LegalRetirees, IsGathering, LegalLoot, LootGenerated, OfficeItems, LootItems;
    WalkDraws();
    WalkSweeps();
    WalkItems();
    WalkMeets();
  }

  // He hands it in after his record was written.
  lemma WalkScores()
    ensures LegalRoutes(Walking(), Walk().routes) && 0 in Gathered(Walking(), 1000, Walk()).dogs
    ensures Gathered(Walking(), 1000, Walk()).dogs[0].score == 5
  {
    hide Advanced, LegalRoutes, LegalSweeps, LegalRetirees, LegalLoot, LegalDraw, LootGenerated;
    WalkSweeps();
    WalkDraws();
    RexAdvances(1000, 2.0);
    MovedDog(Walking(), 1000, Walk(), 0);
    FindAndVisit(MovedIn(Walking(), 1000, Walk()));
  }

  lemma FindAndVisit(s: SessionState)
    requires s.world == Map() && s.loots == map[0 := Thing(1.0)]
    requires 0 in s.dogs && s.dogs[0].bag == [] && s.dogs[0].maxBagSize == 3 && s.dogs[0].score == 0
    ensures 0 in AfterEvents(s, [FIND, VISIT], 2).dogs && AfterEvents(s, [FIND, VISIT], 2).dogs[0].score == 5
  {
    assert AfterEvents(s, [FIND, VISIT], 1) == Handled(AfterEvents(s, [FIND, VISIT], 0), FIND) == PickedUp(s, 0, 0);
    assert PickedUp(s, 0, 0).dogs[0].bag == [BagItem(0, 0)];
    assert BagScore(Map(), [BagItem(0, 0)], 1) == 5;
    assert AfterEvents(s, [FIND, VISIT], 2) == Handled(PickedUp(s, 0, 0), VISIT) == Delivered(PickedUp(s, 0, 0), 0);
  }

  const WALKS := Tick(1000, [Walk()], map["a" := 0], [])

  lemma WalksIsLegal()
    ensures Legal(Town(0), RexWalks(), WALKS)
  {
    hide LegalTick, LegalDraw;
    WalkIsLegal();
    WalkDraws();
    assert Walk().retirees[0].id == 0;
    assert Listed([Walk()][0].retirees, 1, 0);
    assert Removes([Walk()], 0, 0);
  }

  ghost function FirstWalk(): Run
    requires Legal(Town(0), RexWalks(), WALKS)
  {
    var first := Fresh(Town(0));
    Run([first, RexJoined(), RexWalks(), Step(Town(0), RexWalks(), WALKS)], [Joins("Rex", "a"), GO, WALKS])
  }

  lemma FirstWalkIsRun()
    ensures Legal(Town(0), RexWalks(), WALKS) && IsRun(Town(0), FirstWalk())
  {
    hide Follows, Step, Legal, Fresh, RexJoined, RexWalks;
    WalksIsLegal();
    RexJoins(0);
    RexSetsOut(0);
    assert Follows(Town(0), RexWalks(), WALKS, Step(Town(0), RexWalks(), WALKS)) by { FollowsStep(); }
    var r := FirstWalk();
    assert StepsAt(Town(0), r, 0) && StepsAt(Town(0), r, 1) && StepsAt(Town(0), r, 2);
  }

  lemma FollowsStep()
    requires Legal(Town(0), RexWalks(), WALKS)
    ensures Follows(Town(0), RexWalks(), WALKS, Step(Town(0), RexWalks(), WALKS))
  {
    hide Step, Legal;
  }

  // A run in which the record of a dog misses a score.
  lemma RecordMissesScore()
    ensures Legal(Town(0), RexWalks(), WALKS) && RetiresAt(Town(0), 0, FirstWalk(), 2, 0, 0)
    ensures !RecordFinal(Walking(), 1000, Walk(), Walk().retirees[0])
  {
    hide Legal, Step, IsRun, Gathered;
    FirstWalkIsRun();
    TownIsGood(0);
    WalkScores();
  }

  // The records saved are those of the final states of their dogs, in all runs of the server, if and only
  // if the retirement time is positive.
  lemma RecordsFinalIffLimitPositive(retirement: nat)
    ensures retirement > 0 <==> AllRecordsFinal(retirement)
  {
    hide RecordFinal, RetiresAt;
    if retirement > 0 {
      PositiveIsFinal(retirement);
    } else {
      ZeroIsNot();
    }
  }

  lemma PositiveIsFinal(retirement: nat)
    requires retirement > 0
    ensures AllRecordsFinal(retirement)
  {
    hide RecordFinal, GoodConfig;
    forall cfg, r: Run, n: nat, k: nat, x: nat | RetiresAt(cfg, retirement, r, n, k, x)
      ensures RecordFinal(r.states[n].sessions[k], r.actions[n].dt, r.actions[n].ts[k], r.actions[n].ts[k].retirees[x])
    {
      FinalWhenPositive(cfg, retirement, r, n, k, x);
    }
  }

  lemma ZeroIsNot()
    ensures !AllRecordsFinal(0)
  {
    hide RecordFinal, Legal, Step, IsRun, GoodConfig;
    RecordMissesScore();
    var r := FirstWalk();
    assert r.states[2].sessions[0] == Walking() && r.actions[2] == WALKS;
    assert RetiresAt(Town(0), 0, r, 2, 0, 0);
  }

  // ---------- The books ----------

  lemma FirstWalkDelivers(s: SessionState)
    requires s.world == Map() && s.loots == map[0 := Thing(1.0)] && s.ledger.delivered == multiset{}
    requires 0 in s.dogs && s.dogs[0].bag == [] && s.dogs[0].maxBagSize == 3
    ensures var r := AfterEvents(s, [FIND, VISIT], 2);
            r.ledger == s.ledger.(delivered := multiset{BagItem(0, 0)}) && r.dogs.Keys == s.dogs.Keys &&
                r.world == Map()
  {
    var found := PickedUp(s, 0, 0);
    assert AfterEvents(s, [FIND, VISIT], 1) == Handled(AfterEvents(s, [FIND, VISIT], 0), FIND) == found;
    assert found.dogs[0].bag == [BagItem(0, 0)];
    assert AfterEvents(s, [FIND, VISIT], 2) == Handled(found, VISIT) == Delivered(found, 0);
    assert multiset([BagItem(0, 0)]) == multiset{BagItem(0, 0)};
  }

  // After the tick the thing is delivered, its finder gone, and nothing on record.
  lemma WalkBooks()
    ensures LegalRoutes(Walking(), Walk().routes)
    ensures var s := Ticked(Walking(), 1000, Walk());
            && s.world == Map() && s.dogs == map[] && s.ledger.delivered == multiset{BagItem(0, 0)}
            && s.ledger.recorded == 0 && s.ledger.opening == 0
  {
    hide Advanced, LegalRoutes, LegalSweeps, LegalRetirees, LegalLoot, LegalDraw, AfterEvents;
    WalkSweeps();
    WalkDraws();
    RexAdvances(1000, 2.0);
    MovedDog(Walking(), 1000, Walk(), 0);
    WalkDrawn();
    FirstWalkDelivers(MovedIn(Walking(), 1000, Walk()));
    var g := Gathered(Walking(), 1000, Walk());
    assert AllRemoved(g, Walk().retirees, 1) == Removed(AllRemoved(g, Walk().retirees, 0), Walk().retirees[0]);
    assert Erase(g.dogs, 0).Keys == {};
  }

  lemma WalkDrawn()
    ensures LootGenerated(Walking(), 1000, Walk().drawn).ledger == EMPTY_LEDGER.(placed := multiset{BagItem(0, 0)})
  {
    hide Walker;
    assert AllPlaced(Waited(Walking(), 1000, Walk().drawn), Walk().drawn, 0) == Waited(Walking(), 1000, Walk().drawn);
  }

  lemma WalkUnsettled()
    ensures LegalRoutes(Walking(), Walk().routes) && !Settled(Ticked(Walking(), 1000, Walk()))
  {
    hide Ticked, Walk, Walking, LegalRoutes;
    WalkBooks();
    Sums.WorthPlus(Price(Map()), multiset{}, BagItem(0, 0));
    assert multiset{} + multiset{BagItem(0, 0)} == multiset{BagItem(0, 0)};
    assert Scores(map[]) == map[];
  }

  // In every state of every run the books of all sessions balance.
  ghost predicate AllBooksBalance(retirement: nat) {
    forall cfg, r: Run, n: nat :: BalanceAt(cfg, retirement, r, n) ==> AllBalanced(r.states[n].sessions)
  }

  ghost predicate BalanceAt(cfg: Config, retirement: nat, r: Run, n: nat) {
    GoodConfig(cfg) && cfg.retirement == retirement && IsRun(cfg, r) && r.states[0] == Fresh(cfg) && n < |r.states|
  }

  // Scores and records account for all deliveries, in all runs of the server, if and only if the retirement
  // time is positive.
  lemma BooksBalanceIffLimitPositive(retirement: nat)
    ensures retirement > 0 <==> AllBooksBalance(retirement)
  {
    hide AllBalanced, Legal, Step, IsRun, GoodConfig;
    if retirement > 0 {
      forall cfg, r: Run, n: nat | BalanceAt(cfg, retirement, r, n) ensures AllBalanced(r.states[n].sessions) {
        RunBalanced(cfg, r, n);
      }
    } else {
      FirstWalkUnbalanced();
      assert BalanceAt(Town(0), 0, FirstWalk(), 3);
    }
  }

  lemma FirstWalkUnbalanced()
    ensures Legal(Town(0), RexWalks(), WALKS) && BalanceAt(Town(0), 0, FirstWalk(), 3)
    ensures !AllBalanced(FirstWalk().states[3].sessions)
  {
    hide Legal, Step, IsRun, Settled, Ticked, LegalTick, LegalDraw;
    FirstWalkIsRun();
    TownIsGood(0);
    TickStep(Town(0), RexWalks(), WALKS, 0);
    WalkUnsettled();
  }
}
