/** The loops of one session's tick: moving the dogs, handling the events. */
module SessionTick {
  import opened Wrappers
  import opened Roads
  import opened Movement
  import opened Gather
  import opened LootGeneration
  import opened Dogs
  import opened DogModel
  import opened RoadIndex
  import opened Sessions
  import opened SessionModel
  import opened Arrival

  // ---------- What the loop over the dogs collects ----------

  function Optional<T>(o: Option<T>): seq<T> { if o.Some? then [o.value] else [] }

  // The sweep of one dog, if it moved with this answer of the road index.
  ghost function SweepAt(s: SessionState, dt: nat, routes: map<nat, seq<nat>>, id: nat): Option<Gatherer> {
    if id in s.dogs && id in routes && InRange(s.world.roads, routes[id])
        then Sweep(s.world.roads, id, s.dogs[id], dt, routes[id])
    else None
  }

  ghost function SweepsOf(s: SessionState, dt: nat, routes: map<nat, seq<nat>>, order: seq<nat>, n: nat): seq<Gatherer>
    requires n <= |order|
  {
    if n == 0 then [] else SweepsOf(s, dt, routes, order, n - 1) + Optional(SweepAt(s, dt, routes, order[n - 1]))
  }

  ghost function RetireesOf(s: SessionState, retirement: nat, dt: nat, order: seq<nat>, n: nat): seq<Retiree>
    requires n <= |order| && forall k :: 0 <= k < |order| ==> order[k] in s.dogs
  {
    if n == 0 then []
    else
      var id := order[n - 1];
      var d := s.dogs[id];
      RetireesOf(s, retirement, dt, order, n - 1) + RetiredNow(id, d, retirement, dt)
  }

  function RetiredNow(id: nat, d: DogState, retirement: nat, dt: nat): seq<Retiree> {
    if Expires(retirement, d, dt) then [Retiree(id, RecordOf(d.(lifeTime := d.lifeTime + dt)))] else []
  }

  ghost predicate OncePerDog(sweeps: seq<Gatherer>) {
    forall i, j :: 0 <= i < j < |sweeps| ==> sweeps[i].id != sweeps[j].id
  }

  ghost predicate OnceRetired(rs: seq<Retiree>) { forall i, j :: 0 <= i < j < |rs| ==> rs[i].id != rs[j].id }

  lemma SweepNamesDog(s: SessionState, dt: nat, routes: map<nat, seq<nat>>, id: nat)
    ensures var g := SweepAt(s, dt, routes, id); g.Some? ==> g.value.id == id
  {
  }

  // The answers for dogs not visited yet make no difference.
  lemma {:induction false} SweepsLater(s: SessionState, dt: nat, routes: map<nat, seq<nat>>, order: seq<nat>, n: nat,
      id: nat, hits: seq<nat>)
    requires n <= |order| && forall k :: 0 <= k < n ==> order[k] != id
    ensures SweepsOf(s, dt, routes[id := hits], order, n) == SweepsOf(s, dt, routes, order, n)
  {
    if n > 0 {
      SweepsLater(s, dt, routes, order, n - 1, id, hits);
    }
  }

  lemma {:induction false} SweepsFrom(s: SessionState, dt: nat, routes: map<nat, seq<nat>>, order: seq<nat>, n: nat,
      k: nat) returns (j: nat)
    requires n <= |order| && k < |SweepsOf(s, dt, routes, order, n)|
    ensures j < n && SweepsOf(s, dt, routes, order, n)[k].id == order[j]
    ensures SweepAt(s, dt, routes, order[j]) == Some(SweepsOf(s, dt, routes, order, n)[k])
  {
    hide SweepAt;
    if k < |SweepsOf(s, dt, routes, order, n - 1)| {
      j := SweepsFrom(s, dt, routes, order, n - 1, k);
    } else {
      j := n - 1;
      SweepNamesDog(s, dt, routes, order[j]);
    }
  }

  lemma {:induction false} SweepsDistinct(s: SessionState, dt: nat, routes: map<nat, seq<nat>>, order: seq<nat>, n: nat)
    requires n <= |order| && Distinct(order)
    ensures OncePerDog(SweepsOf(s, dt, routes, order, n))
  {
    hide SweepAt;
    if n > 0 {
      SweepsDistinct(s, dt, routes, order, n - 1);
      var before, all := SweepsOf(s, dt, routes, order, n - 1), SweepsOf(s, dt, routes, order, n);
      forall i, j | 0 <= i < j < |all| ensures all[i].id != all[j].id {
        if j < |before| {
          assert all[i] == before[i] && all[j] == before[j];
        } else {
          var k := SweepsFrom(s, dt, routes, order, n - 1, i);
          SweepNamesDog(s, dt, routes, order[n - 1]);
          assert order[k] != order[n - 1];
          assert all[i] == before[i] && all[j].id == order[n - 1];
        }
      }
    }
  }

  lemma {:induction false} SweepsTo(s: SessionState, dt: nat, routes: map<nat, seq<nat>>, order: seq<nat>, n: nat,
      j: nat)
    requires j < n <= |order| && SweepAt(s, dt, routes, order[j]).Some?
    ensures Swept(SweepsOf(s, dt, routes, order, n), order[j])
  {
    hide SweepAt;
    var all := SweepsOf(s, dt, routes, order, n);
    if j < n - 1 {
      SweepsTo(s, dt, routes, order, n - 1, j);
      var before := SweepsOf(s, dt, routes, order, n - 1);
      var k :| 0 <= k < |before| && before[k].id == order[j];
      assert all[k].id == order[j];
    } else {
      SweepNamesDog(s, dt, routes, order[j]);
      assert all[|all| - 1].id == order[j];
    }
  }

  lemma SweepOfRouted(s: SessionState, dt: nat, routes: map<nat, seq<nat>>, id: nat)
    requires LegalRoutes(s, routes) && id in s.dogs
    ensures id in routes && InRange(s.world.roads, routes[id])
    ensures SweepAt(s, dt, routes, id) == Sweep(s.world.roads, id, s.dogs[id], dt, routes[id])
  {
  }

  // The sweeps collected by visiting every dog once, in any order, are the dogs' sweeps, each once.
  lemma SweepsAreLegal(s: SessionState, dt: nat, routes: map<nat, seq<nat>>, order: seq<nat>)
    requires LegalRoutes(s, routes) && Enumerates(order, s.dogs.Keys)
    ensures LegalSweeps(s, dt, routes, SweepsOf(s, dt, routes, order, |order|))
  {
    hide Sweep, SweepsOf, SweepAt, IsQuery;
    forall id: nat | id in s.dogs
      ensures id in routes && InRange(s.world.roads, routes[id])
      ensures SweepAt(s, dt, routes, id) == Sweep(s.world.roads, id, s.dogs[id], dt, routes[id])
    {
      SweepOfRouted(s, dt, routes, id);
    }
    var g := SweepsOf(s, dt, routes, order, |order|);
    forall k: nat | k < |g|
      ensures g[k].id in s.dogs && SweepAt(s, dt, routes, g[k].id) == Some(g[k])
    {
      var j := SweepsFrom(s, dt, routes, order, |order|, k);
    }
    SweepsDistinct(s, dt, routes, order, |order|);
    forall id: nat | id in s.dogs && SweepAt(s, dt, routes, id).Some? ensures Swept(g, id) {
      var j: nat :| j < |order| && order[j] == id;
      SweepsTo(s, dt, routes, order, |order|, j);
    }
  }

  lemma {:induction false} RetireesFrom(s: SessionState, retirement: nat, dt: nat, order: seq<nat>, n: nat, k: nat)
      returns (j: nat)
    requires n <= |order| && forall i :: 0 <= i < |order| ==> order[i] in s.dogs
    requires k < |RetireesOf(s, retirement, dt, order, n)|
    ensures j < n && RetireesOf(s, retirement, dt, order, n)[k].id == order[j]
    ensures RetiresAs(s, retirement, dt, RetireesOf(s, retirement, dt, order, n)[k])
  {
    hide Expires;
    if k < |RetireesOf(s, retirement, dt, order, n - 1)| {
      j := RetireesFrom(s, retirement, dt, order, n - 1, k);
    } else {
      j := n - 1;
    }
  }

  lemma {:induction false} RetireesDistinct(s: SessionState, retirement: nat, dt: nat, order: seq<nat>, n: nat)
    requires n <= |order| && forall i :: 0 <= i < |order| ==> order[i] in s.dogs
    requires Distinct(order)
    ensures OnceRetired(RetireesOf(s, retirement, dt, order, n))
  {
    hide Expires, RetiresAs;
    if n > 0 {
      RetireesDistinct(s, retirement, dt, order, n - 1);
      var before := RetireesOf(s, retirement, dt, order, n - 1);
      var all := RetireesOf(s, retirement, dt, order, n);
      forall i, j | 0 <= i < j < |all| ensures all[i].id != all[j].id {
        if j < |before| {
          assert all[i] == before[i] && all[j] == before[j];
        } else {
          var k := RetireesFrom(s, retirement, dt, order, n - 1, i);
          assert order[k] != order[n - 1];
          assert all[i] == before[i] && all[j].id == order[n - 1];
        }
      }
    }
  }

  lemma {:induction false} RetireesTo(s: SessionState, retirement: nat, dt: nat, order: seq<nat>, n: nat, j: nat)
    requires j < n <= |order| && forall i :: 0 <= i < |order| ==> order[i] in s.dogs
    requires Expires(retirement, s.dogs[order[j]], dt)
    ensures var rs := RetireesOf(s, retirement, dt, order, n); Listed(rs, |rs|, order[j])
  {
    hide Expires;
    var rs := RetireesOf(s, retirement, dt, order, n);
    if j < n - 1 {
      RetireesTo(s, retirement, dt, order, n - 1, j);
      var before := RetireesOf(s, retirement, dt, order, n - 1);
      var k :| 0 <= k < |before| && before[k].id == order[j];
      assert rs[k].id == order[j];
    } else {
      assert rs[|rs| - 1].id == order[j];
    }
  }

  lemma RetireesAreLegal(s: SessionState, retirement: nat, dt: nat, order: seq<nat>)
    requires Enumerates(order, s.dogs.Keys)
    ensures LegalRetirees(s, retirement, dt, RetireesOf(s, retirement, dt, order, |order|))
  {
    hide Expires, RetiresAs, RetireesOf;
    var rs := RetireesOf(s, retirement, dt, order, |order|);
    forall k: nat | k < |rs| ensures RetiresAs(s, retirement, dt, rs[k]) {
      var j := RetireesFrom(s, retirement, dt, order, |order|, k);
    }
    RetireesDistinct(s, retirement, dt, order, |order|);
    forall id: nat | id in s.dogs && Expires(retirement, s.dogs[id], dt) ensures Listed(rs, |rs|, id) {
      var j: nat :| j < |order| && order[j] == id;
      RetireesTo(s, retirement, dt, order, |order|, j);
    }
  }

  // ---------- Moving ----------

  // Timers, move and stop of one dog; its sweep, if it moved, and the stop time the retirement test sees.
  // The road index is asked only for a dog that means to move.
  method MoveDog(world: RoadMap, id: nat, dog: Dog, dt: nat)
    returns (sweep: Option<Gatherer>, stopTime: nat, ghost hits: seq<nat>)
    requires world.Indexed()
    modifies dog
    ensures IsQuery(world.config.roads, old(dog.coord), hits)
    ensures dog.View() == Advanced(world.config.roads, old(dog.View()), dt, hits)
    ensures sweep == Sweep(world.config.roads, id, old(dog.View()), dt, hits)
    ensures stopTime == if Still(old(dog.View()), dt) then old(dog.stopTime) + dt else 0
    ensures OnRoad(world.config.roads, old(dog.coord)) ==>
        Goes(world.config.roads, id, old(dog.View()), dt, dog.View(), sweep)
  {
    hide Resolve, Ahead, Goes, OnRoad;
    ghost var d := dog.View();
    stopTime, sweep := 0, None;
    var current := dog.coord;
    var move := Vec(Ahead(current.x, dog.speed.x, dt as real), Ahead(current.y, dog.speed.y, dt as real));
    var lifeTime := dog.AddLifeTime(dt);
    if current == move {
      stopTime := dog.AddStopTime(dt);
      ScanIsQuery(world.config.roads, current);
      hits := Scan(world.config.roads, current, |world.config.roads|);
    } else {
      var result;
      result, hits := world.GetSuccessRoadMoveSimple(current, move);
      if result.Some? {
        dog.SetMoveCoord(result.value.at);
        if result.value.free {
          sweep := Some(Gatherer(id, current, move, PLAYER_WIDTH / 2.0));
        } else {
          dog.SetMoveSpeed(ZERO);
          sweep := Some(Gatherer(id, current, result.value.at, PLAYER_WIDTH / 2.0));
        }
        dog.ResetStopTime();
      }
    }
    if OnRoad(world.config.roads, d.coord) {
      GoesOn(world.config.roads, id, d, dt, hits);
    }
  }

  // One turn of the loop over the dogs: what it adds to the sweeps and to the dogs to be removed.
  method VisitDog(world: RoadMap, id: nat, dog: Dog, retirement: nat, dt: nat)
    returns (swept: seq<Gatherer>, retired: seq<Retiree>, ghost hits: seq<nat>)
    requires world.Indexed()
    modifies dog
    ensures IsQuery(world.config.roads, old(dog.coord), hits)
    ensures dog.View() == Advanced(world.config.roads, old(dog.View()), dt, hits)
    ensures swept == Optional(Sweep(world.config.roads, id, old(dog.View()), dt, hits))
    ensures retired == RetiredNow(id, old(dog.View()), retirement, dt)
  {
    hide Advanced, Sweep, Still;
    var sweep, stopTime;
    sweep, stopTime, hits := MoveDog(world, id, dog, dt);
    AdvancedKeeps(world.config.roads, old(dog.View()), dt, hits);
    swept, retired := Optional(sweep), [];
    if stopTime >= retirement {
      retired := [Retiree(id, Record(dog.name, dog.score, dog.lifeTime))];
    }
  }

  // The dog was moved by one step, with an answer of the road index for the place it had.
  ghost predicate MovedTo(d: DogState, s: SessionState, id: nat, dt: nat, routes: map<nat, seq<nat>>) {
    && id in s.dogs && id in routes && IsQuery(s.world.roads, s.dogs[id].coord, routes[id])
    && d == Advanced(s.world.roads, s.dogs[id], dt, routes[id])
  }

  lemma MovedNow(s: SessionState, id: nat, dt: nat, routes: map<nat, seq<nat>>, hits: seq<nat>)
    requires id in s.dogs && IsQuery(s.world.roads, s.dogs[id].coord, hits)
    ensures MovedTo(Advanced(s.world.roads, s.dogs[id], dt, hits), s, id, dt, routes[id := hits])
    ensures SweepAt(s, dt, routes[id := hits], id) == Sweep(s.world.roads, id, s.dogs[id], dt, hits)
    ensures forall d, other: nat :: MovedTo(d, s, other, dt, routes) && other != id ==>
        MovedTo(d, s, other, dt, routes[id := hits])
  {
  }

  // Every dog once, in the table's order: moves, sweeps, and the records of the dogs that retire.
  method MoveDogs(session: GameSession, retirement: nat, dt: nat, order: seq<nat>)
    returns (gatherers: seq<Gatherer>, retirees: seq<Retiree>, ghost routes: map<nat, seq<nat>>)
    requires session.Valid() && Enumerates(order, session.dogs.Keys)
    modifies session.dogs.Values
    ensures session.Valid() && LegalRoutes(old(session.View()), routes)
    ensures session.View() == Moved(old(session.View()), dt, routes)
    ensures gatherers == SweepsOf(old(session.View()), dt, routes, order, |order|)
    ensures retirees == RetireesOf(old(session.View()), retirement, dt, order, |order|)
  {
    hide LegalRoutes, Advanced, Sweep, SweepAt, Apart, Enumerates, RetiredNow, Optional, IsQuery, Views, MovedTo;
    ghost var s := session.View();
    ghost var dogs := session.dogs;
    DogsInOrder(dogs, order);
    gatherers, retirees, routes := [], [], map[];
    for k := 0 to |order|
      invariant session.Valid() && session.dogs == dogs
      invariant forall j :: k <= j < |order| ==> dogs[order[j]].View() == s.dogs[order[j]]
      invariant forall j :: 0 <= j < k ==> MovedTo(dogs[order[j]].View(), s, order[j], dt, routes)
      invariant gatherers == SweepsOf(s, dt, routes, order, k)
      invariant retirees == RetireesOf(s, retirement, dt, order, k)
    {
      var id := order[k];
      var dog := session.dogs[id];
      assert dog.View() == s.dogs[id];
      var swept, retired;
      ghost var hits;
      swept, retired, hits := VisitDog(session.world, id, dog, retirement, dt);
      MovedNow(s, id, dt, routes, hits);
      SweepsLater(s, dt, routes, order, k, id, hits);
      gatherers, retirees, routes := gatherers + swept, retirees + retired, routes[id := hits];
    }
    AllMoved(dogs, s, dt, order, routes);
  }

  lemma AllMoved(dogs: map<nat, Dog>, s: SessionState, dt: nat, order: seq<nat>, routes: map<nat, seq<nat>>)
    requires Enumerates(order, dogs.Keys) && dogs.Keys == s.dogs.Keys
    requires forall j :: 0 <= j < |order| ==>
        order[j] in dogs && MovedTo(dogs[order[j]].View(), s, order[j], dt, routes)
    ensures LegalRoutes(s, routes) && Views(dogs) == Moved(s, dt, routes).dogs
  {
    hide Advanced;
    forall id: nat | id in dogs ensures MovedTo(dogs[id].View(), s, id, dt, routes) {
      var j :| 0 <= j < |order| && order[j] == id;
    }
  }

  lemma DogsInOrder(dogs: map<nat, Dog>, order: seq<nat>)
    requires Apart(dogs) && Enumerates(order, dogs.Keys)
    ensures Views(dogs).Keys == dogs.Keys
    ensures forall k :: 0 <= k < |order| ==>
        order[k] in dogs && order[k] in Views(dogs) && Views(dogs)[order[k]] == dogs[order[k]].View()
    ensures forall i, j :: 0 <= i < |order| && 0 <= j < |order| && i != j ==>
        order[i] != order[j] && dogs[order[i]] != dogs[order[j]]
  {
    forall i, j | 0 <= i < |order| && 0 <= j < |order| && i != j
      ensures order[i] != order[j] && dogs[order[i]] != dogs[order[j]]
    {
      if i < j {
        assert order[i] != order[j];
      } else {
        assert order[j] != order[i];
      }
    }
  }

  // ---------- Events ----------

  lemma ReplacedView(dogs: map<nat, Dog>, views: map<nat, DogState>, id: nat)
    requires id in dogs && views.Keys == dogs.Keys
    requires forall j: nat :: j in dogs && j != id ==> dogs[j].View() == views[j]
    ensures Views(dogs) == views[id := dogs[id].View()]
  {
  }

  // A visit to an office: the bag is emptied and what was in it scores, thing by thing.
  method Deliver(session: GameSession, id: nat)
    requires session.Valid() && id in session.dogs
    modifies session`ledger, session.dogs[id]
    ensures session.Valid() && session.View() == Delivered(old(session.View()), id)
    ensures var s := old(session.View());
            id in s.dogs && forall values ::
                ValuesOf(s.world, s.dogs[id].bag, values) ==> HandedIn(s, session.View(), id, values)
  {
    hide Views, Apart, BagScore, RoadMap.Indexed, HandedIn, ValuesOf;
    ghost var views := Views(session.dogs);
    ViewsAll(session.dogs);
    HandsIn(session.View(), id);
    OthersApart(session.dogs, id);
    var dog := session.dogs[id];
    session.ledger := session.ledger.(delivered := session.ledger.delivered + multiset(dog.bag));
    assert dog.View() == views[id];
    EmptyBag(session.world.config, dog);
    assert forall j: nat :: j in session.dogs && j != id ==> session.dogs[j].View() == views[j];
    ReplacedView(session.dogs, views, id);
  }

  method EmptyBag(world: MapConfig, dog: Dog)
    modifies dog
    ensures dog.View() == var d := old(dog.View()); d.(bag := [], score := d.score + BagScore(world, d.bag, |d.bag|))
  {
    ghost var d := dog.View();
    var kinds := dog.ClearBag();
    for k := 0 to |kinds|
      invariant dog.View() == d.(bag := [], score := d.score + BagScore(world, d.bag, k))
    {
      dog.AddScore(ScoreByIdx(world, kinds[k]));
    }
  }

  lemma OthersApart(dogs: map<nat, Dog>, id: nat)
    requires Apart(dogs) && id in dogs
    ensures forall j: nat :: j in dogs && j != id ==> dogs[j] != dogs[id]
  {
  }

  lemma ViewsAll(dogs: map<nat, Dog>)
    ensures Views(dogs).Keys == dogs.Keys && forall id: nat :: id in dogs ==> Views(dogs)[id] == dogs[id].View()
  {
  }

  // The dog takes the direction of a move string.
  method SteerDog(session: GameSession, id: nat, move: string)
    requires session.Valid() && id in session.dogs
    modifies session.dogs[id]
    ensures session.Valid()
    ensures session.View() == var s := old(session.View()); s.(dogs := s.dogs[id := Steered(s.dogs[id], move)])
  {
    hide Views, Steered;
    ghost var views := Views(session.dogs);
    ViewsAll(session.dogs);
    session.dogs[id].SetDirection(move);
    ReplacedView(session.dogs, views, id);
  }

  // A lost thing on the ground goes into the bag, if that has room.
  method PickUp(session: GameSession, id: nat, item: nat)
    requires session.Valid() && id in session.dogs && item in session.loots
    modifies session`loots, session.dogs[id]
    ensures session.Valid()
    ensures session.View() ==
            var s := old(session.View()); if HasRoom(s.dogs[id]) then PickedUp(s, id, item) else s
  {
    hide Views;
    ghost var views := Views(session.dogs);
    ViewsAll(session.dogs);
    var dog := session.dogs[id];
    var taken := dog.SetBagItem(BagItem(item, session.loots[item].kind));
    if taken {
      session.RemoveLootById(item);
      ReplacedView(session.dogs, views, id);
    } else {
      ReplacedView(session.dogs, views, id);
      assert views[id := dog.View()] == views;
    }
  }

  method HandleEvent(session: GameSession, event: Event)
    requires session.Valid() && event.gathererId in session.dogs
    modifies session`ledger, session`loots, session.dogs[event.gathererId]
    ensures session.Valid() && session.View() == Handled(old(session.View()), event)
  {
    hide Apart, Delivered, PickedUp;
    if event.itemId >= FIRST_OFFICE_ID {
      Deliver(session, event.gathererId);
    } else if event.itemId in session.loots {
      PickUp(session, event.gathererId, event.itemId);
    }
  }

  // The event loop. Every lookup of an event's dog succeeds, because removals come later.
  method HandleEvents(session: GameSession, events: seq<Event>)
    requires session.Valid() && forall k :: 0 <= k < |events| ==> events[k].gathererId in session.dogs
    modifies session`ledger, session`loots, session.dogs.Values
    ensures session.Valid() && session.View() == AfterEvents(old(session.View()), events, |events|)
  {
    hide Apart, Handled, Views;
    for k := 0 to |events|
      invariant session.Valid() && session.View() == AfterEvents(old(session.View()), events, k)
    {
      HandleEvent(session, events[k]);
    }
  }

  // ---------- The whole tick of a session, up to the removals ----------

  lemma OrderEnumerates(order: seq<nat>, keys: set<nat>)
    requires Distinct(order) && forall x :: x in keys <==> x in order
    ensures Enumerates(order, keys)
  {
    assert forall k :: 0 <= k < |order| ==> order[k] in order;
  }

  method MoveAll(session: GameSession, retirement: nat, dt: nat)
    returns (gatherers: seq<Gatherer>, retirees: seq<Retiree>, ghost routes: map<nat, seq<nat>>)
    requires session.Valid()
    modifies session.dogs.Values
    ensures session.Valid() && LegalRoutes(old(session.View()), routes) &&
        session.View() == Moved(old(session.View()), dt, routes)
    ensures LegalSweeps(old(session.View()), dt, routes, gatherers)
    ensures LegalRetirees(old(session.View()), retirement, dt, retirees)
  {
    hide Views, Apart, LegalRoutes, LegalSweeps, LegalRetirees, SweepsOf, RetireesOf, Enumerates, Moved;
    var order := AnyOrder(session.dogs.Keys);
    OrderEnumerates(order, session.dogs.Keys);
    ghost var s := session.View();
    ViewsAll(session.dogs);
    assert session.View() == s;
    gatherers, retirees, routes := MoveDogs(session, retirement, dt, order);
    SweepsAreLegal(s, dt, routes, order);
    RetireesAreLegal(s, retirement, dt, order);
  }

  method DropLoot(session: GameSession, dt: nat) returns (items: seq<Item>, ghost c: TickChoice)
    requires session.Valid()
    modifies session`loots, session`lootIdIncr, session`ledger, session.generator
    ensures session.Valid() && session.View() == LootGenerated(old(session.View()), dt, c.drawn)
    ensures LegalDraw(old(session.View()), c) && forall k :: 0 <= k < |c.drawn| ==>
        LegalLoot(session.world.config, c.drawn[k])
    ensures Enumerates(c.lootOrder, session.View().loots.Keys)
    ensures items == LootItems(session.View().loots, c.lootOrder) + OfficeItems(session.world.config.offices)
  {
    hide Views, Apart, Enumerates, LegalLoot, LootGenerated, Generated;
    ViewsCount(session.dogs);
    ghost var chance, drawn := session.GenerateLoot(dt);
    var lootOrder := AnyOrder(session.loots.Keys);
    OrderEnumerates(lootOrder, session.loots.Keys);
    items := session.GetLootToItems(lootOrder);
    c := TickChoice(chance, drawn, lootOrder, map[], [], [], []);
  }

  // The choices made one after the other are those of a legal tick.
  lemma ChoiceIsLegal(s: SessionState, retirement: nat, dt: nat, c: TickChoice, items: seq<Item>)
    requires forall k :: 0 <= k < |c.drawn| ==> LegalLoot(s.world, c.drawn[k])
    requires var s1 := LootGenerated(s, dt, c.drawn);
             && Enumerates(c.lootOrder, s1.loots.Keys)
             && items == LootItems(s1.loots, c.lootOrder) + OfficeItems(s.world.offices)
             && LegalRoutes(s1, c.routes) && LegalSweeps(s1, dt, c.routes, c.sweeps) &&
                 LegalRetirees(s1, retirement, dt, c.retirees)
    requires IsGathering(c.sweeps, items, c.events)
    ensures LegalTick(s, retirement, dt, c) && LegalRoutes(s, c.routes)
  {
    hide IsGathering, IsQuery, Sweep, RetiresAs, Expires;
    assert LegalRoutes(s, c.routes);
    assert LegalSweeps(s, dt, c.routes, c.sweeps);
    assert LegalRetirees(s, retirement, dt, c.retirees) by {
      forall k | 0 <= k < |c.retirees| ensures RetiresAs(s, retirement, dt, c.retirees[k]) {
        SameRetiree(s, LootGenerated(s, dt, c.drawn), retirement, dt, c.retirees[k]);
      }
    }
  }

  lemma SameRetiree(s: SessionState, s1: SessionState, retirement: nat, dt: nat, r: Retiree)
    requires s.dogs == s1.dogs && RetiresAs(s1, retirement, dt, r)
    ensures RetiresAs(s, retirement, dt, r)
  {
  }

  lemma EventDogsPresent(s: SessionState, retirement: nat, dt: nat, c: TickChoice)
    requires LegalTick(s, retirement, dt, c)
    ensures forall k :: 0 <= k < |c.events| ==> c.events[k].gathererId in s.dogs
  {
    hide LegalTick;
    forall k | 0 <= k < |c.events| ensures c.events[k].gathererId in s.dogs {
      EventsNameMovers(s, retirement, dt, c, k);
    }
  }

  // Loot, moves and events, in that order; the choices made on the way are a legal tick's.
  method RunSession(session: GameSession, retirement: nat, dt: nat) returns (retirees: seq<Retiree>,
      ghost c: TickChoice)
    requires session.Valid()
    modifies session`loots, session`lootIdIncr, session`ledger, session.generator, session.dogs.Values
    ensures session.Valid() && LegalDraw(old(session.View()), c) && LegalTick(old(session.View()), retirement, dt, c)
    ensures LegalRoutes(old(session.View()), c.routes) && session.View() == Gathered(old(session.View()), dt, c)
    ensures retirees == c.retirees
  {
    hide Views, Apart, LegalRoutes, LegalSweeps, LegalRetirees, IsGathering, Enumerates, Moved, LootGenerated,
        LegalTick, LegalLoot;
    ghost var s := session.View();
    ViewsAll(session.dogs);
    var items;
    items, c := DropLoot(session, dt);
    ghost var s1 := session.View();
    var gatherers;
    ghost var routes;
    gatherers, retirees, routes := MoveAll(session, retirement, dt);
    var events := FindGatherEvents(gatherers, items);
    c := c.(routes := routes, sweeps := gatherers, events := events, retirees := retirees);
    ChoiceIsLegal(s, retirement, dt, c, items);
    EventDogsPresent(s, retirement, dt, c);
    HandleEvents(session, events);
  }

  // A dog leaves, and with it what is in its bag.
  method Retire(session: GameSession, r: Retiree)
    requires session.Valid()
    modifies session
    ensures session.Valid() && session.View() == Removed(old(session.View()), r) &&
        session.Repr() <= old(session.Repr())
  {
    hide Apart, Erase, Views, RoadMap.Indexed;
    ViewsAll(session.dogs);
    ghost var bag := if r.id in session.dogs then multiset(session.dogs[r.id].bag) else multiset{};
    ErasedDogs(session.dogs, r.id);
    session.RemoveDogById(r.id);
    session.ledger := session.ledger.(
        lost := session.ledger.lost + bag, recorded := session.ledger.recorded + r.record.score);
  }

  lemma ErasedDogs(dogs: map<nat, Dog>, id: nat)
    ensures Erase(dogs, id).Values <= dogs.Values
  {
  }
}
