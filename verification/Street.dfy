/** One straight street with an office, and the first actions on it, for runs that show what can happen. */
module Street {
  import opened Wrappers
  import opened Roads
  import opened Movement
  import opened Collision
  import opened Gather
  import LootGeneration
  import opened Dogs
  import opened Sessions
  import opened Servers

  function Map(): MapConfig {
    MapConfig("street", [Horizontal(Cell(0, 0), 10)], [Cell(2, 0)], 2.0, 3, 1, [5])
  }

  function Town(retirement: nat): Config { Config(map["street" := Map()], retirement, 0, true, false) }

  lemma TownIsGood(retirement: nat)
    ensures GoodConfig(Town(retirement))
  {
  }

  function At(x: real): Vec { Vec(x, 0.0) }

  lemma StreetIsUnder(x: real)
    requires 0.0 <= x <= 10.0
    ensures IsQuery(Map().roads, At(x), [0])
  {
  }

  function Newcomer(name: string): DogState { NewDog(At(0.0), 2.0, name, 3) }

  function Joins(name: string, token: string): Action { Join(name, "street", Cell(0, 0), token) }

  function Alone(): SessionState { NewSession(Map()).(dogs := map[0 := Newcomer("Rex")]) }

  // The server after the first player, Rex, has joined.
  function RexJoined(): ServerState {
    ServerState([Alone()], map[0 := Player(0, "street")], 1, map["a" := Player(0, "street")], 0, 0, [], None)
  }

  lemma RexJoins(retirement: nat)
    ensures Follows(Town(retirement), Fresh(Town(retirement)), Joins("Rex", "a"), RexJoined())
  {
    assert FindSession([], "street", 0) == None;
  }

  // ---------- Rex sets out ----------

  function Walker(): DogState { Newcomer("Rex").(direct := EAST, speed := Vec(2.0, 0.0)) }

  function Walking(): SessionState { Alone().(dogs := map[0 := Walker()]) }

  function RexWalks(): ServerState { RexJoined().(sessions := [Walking()]) }

  const GO := Steer("a", "R")

  lemma RexSetsOut(retirement: nat)
    ensures Follows(Town(retirement), RexJoined(), GO, RexWalks())
  {
    assert FindSession([Alone()], "street", 1) == Some(0);
    assert Steered(Newcomer("Rex"), "R") == Walker();
    assert SteeredIn(Alone(), 0, "R") == Walking() by {
      assert Alone().dogs[0 := Walker()] == map[0 := Walker()];
    }
    assert [Alone()][0 := Walking()] == [Walking()];
  }

  function WayTo(x: real): Gatherer { Gatherer(0, At(0.0), At(x), PLAYER_WIDTH / 2.0) }

  // Rex walks freely for one or for half a second.
  lemma RexAdvances(dt: nat, x: real)
    requires (dt == 500 && x == 1.0) || (dt == 1000 && x == 2.0)
    ensures Advanced(Map().roads, Walker(), dt, [0]) == Walker().(coord := At(x), lifeTime := dt)
    ensures Sweep(Map().roads, 0, Walker(), dt, [0]) == Some(WayTo(x)) && !Still(Walker(), dt)
  {
    assert Requested(Walker(), dt) == At(x);
    assert Visit(Map().roads[0], At(x), None) == Verdict(true, At(x));
  }

  lemma StreetRoutes(s: SessionState, routes: map<nat, seq<nat>>)
    requires s.world == Map() && forall id: nat :: id in s.dogs ==>
        id in routes && routes[id] == [0] && exists x :: 0.0 <= x <= 10.0 && s.dogs[id].coord == At(x)
    ensures LegalRoutes(s, routes)
  {
    forall id: nat | id in s.dogs ensures IsQuery(Map().roads, s.dogs[id].coord, routes[id]) {
      var x :| 0.0 <= x <= 10.0 && s.dogs[id].coord == At(x);
      StreetIsUnder(x);
    }
  }

  // What a walk from the start to x finds at place c.
  lemma MeetsOnWay(x: real, c: real, u2: real, uv: real, v2: real)
    requires x != 0.0 && u2 == c * c && uv == c * x && v2 == x * x && v2 != 0.0
    ensures TryCollectPoint(At(0.0), At(x), At(c)) == Project(u2, uv, v2)
  {
    hide Project;
    assert Minus(At(c), At(0.0)) == At(c) && Minus(At(x), At(0.0)) == At(x);
    assert SqLen(At(c)) == u2 && Dot(At(c), At(x)) == uv && SqLen(At(x)) == v2;
  }

  function Thing(x: real): Loot { Loot(0, At(x)) }

  // ---------- Ticks in which every dog stands still ----------

  ghost predicate AllStill(s: SessionState, dt: nat) { forall id: nat :: id in s.dogs ==> Still(s.dogs[id], dt) }

  function Waits(chance: real, drawn: seq<Loot>, order: seq<nat>, routes: map<nat, seq<nat>>,
      retirees: seq<Retiree>): TickChoice {
    TickChoice(chance, drawn, order, routes, [], [], retirees)
  }

  lemma NothingMeets(items: seq<Item>)
    ensures IsGathering([], items, [])
  {
    ListsNothing(Outcome, [], items);
    assert Values(Outcome, [], items, []) == [];
  }

  lemma WaitingIsLegal(s: SessionState, retirement: nat, dt: nat, c: TickChoice)
    requires AllStill(s, dt) && c.sweeps == [] && c.events == [] && LegalRoutes(s, c.routes)
    requires forall k :: 0 <= k < |c.drawn| ==> LegalLoot(s.world, c.drawn[k])
    requires Enumerates(c.lootOrder, LootGenerated(s, dt, c.drawn).loots.Keys)
    requires LegalRetirees(s, retirement, dt, c.retirees)
    ensures LegalTick(s, retirement, dt, c)
  {
    hide LegalLoot, LegalRetirees, IsGathering, LootGenerated;
    NothingMeets(LootItems(LootGenerated(s, dt, c.drawn).loots, c.lootOrder) + OfficeItems(s.world.offices));
  }

  // ---------- Walks that meet something ----------

  function Lying(x: real): Item { Item(At(x), ITEM_WIDTH / 2.0, 0) }

  function Office(): Item { Item(At(2.0), OFFICE_WIDTH / 2.0, FIRST_OFFICE_ID) }

  lemma WalkItems()
    ensures LootItems(map[0 := Thing(1.0)], [0]) + OfficeItems(Map().offices) == [Lying(1.0), Office()]
  {
  }

  lemma FirstListed(g: Gatherer, x: Item, y: Item)
    requires Outcome(g, x).Some?
    ensures Lists(Outcome, [g], [x, y], 0, 1, [Pair(0, 0)])
    ensures Values(Outcome, [g], [x, y], [Pair(0, 0)]) == [Outcome(g, x).value]
  {
    hide Outcome;
    assert Defined(Outcome, [g], [x, y], Pair(0, 0));
  }

  lemma SecondListed(g: Gatherer, x: Item, y: Item, src: seq<Pair>)
    requires Lists(Outcome, [g], [x, y], 0, 1, src)
    ensures var next := if Outcome(g, y).Some? then src + [Pair(0, 1)] else src;
            && Lists(Outcome, [g], [x, y], 1, 0, next)
            && Values(Outcome, [g], [x, y], next) ==
                 Values(Outcome, [g], [x, y], src) + if Outcome(g, y).Some? then [Outcome(g, y).value] else []
  {
    hide Outcome, Values, Defined, Below, Distinct;
    ListsNext(Outcome, [g], [x, y], 0, 1, src);
    ListsRow(Outcome, [g], [x, y], 0, if Outcome(g, y).Some? then src + [Pair(0, 1)] else src);
  }

  // The events of one gatherer that meets the first of two items, and perhaps the second.
  lemma Meets(g: Gatherer, x: Item, y: Item, events: seq<Event>)
    requires Outcome(g, x).Some? && SortedByTime(events)
    requires events == [Outcome(g, x).value] + if Outcome(g, y).Some? then [Outcome(g, y).value] else []
    ensures IsGathering([g], [x, y], events)
  {
    hide Outcome, Values, SortedByTime, Defined, Below, Distinct;
    FirstListed(g, x, y);
    SecondListed(g, x, y, [Pair(0, 0)]);
  }

  // The loot generator gives one thing at full chance, when one dog looks for loot and nothing lies about.
  lemma OneIsDrawn(s: SessionState, c: TickChoice)
    requires c.chance == 1.0 && |c.drawn| == 1 && s.loots == map[] && |s.dogs| == 1
    ensures LegalDraw(s, c)
  {
    LootGeneration.GeneratedWithinShortage(1.0, 0, 1);
  }

  lemma ThingIsLegal(x: int)
    requires 0 <= x <= 10
    ensures LegalLoot(Map(), Thing(x as real))
  {
    var c := Cell(x, 0);
    assert c.ToVec() == At(x as real);
    assert SpawnPoint(Map(), c) by {
      assert OnCentreline(Map().roads[0], c.ToVec());
    }
  }

  lemma NobodyRetires(ts: seq<TickChoice>)
    requires forall i :: 0 <= i < |ts| ==> ts[i].retirees == []
    ensures forall id: nat :: !RetiresIn(ts, id)
  {
  }

  lemma Ends(cfg: Config, st: ServerState, a: Action)
    requires Legal(cfg, st, a)
    ensures Follows(cfg, st, a, Step(cfg, st, a))
  {
    hide Legal, Step;
  }
}
