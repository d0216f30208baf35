/** A game session: its dogs and lost things, and one tick of it as a function of the choices made. */
module Sessions {
  import opened Wrappers
  import opened Roads
  import opened Gather
  import opened LootGeneration
  import opened Dogs

  // What the configuration says about one map.
  datatype MapConfig = MapConfig(
    id: string, roads: seq<Road>, offices: seq<Cell>, speed: real, bagCapacity: int, lootTypes: nat,
        scoreValues: seq<int>)

  // A map the game can run on: it has a road, something to lose, and a value for everything lost.
  predicate WellFormed(m: MapConfig) {
    |m.roads| > 0 && m.lootTypes > 0 && |m.scoreValues| == m.lootTypes
  }

  datatype Loot = Loot(kind: int, pos: Vec)

  const FIRST_OFFICE_ID: nat := 9999
  const OFFICE_WIDTH := 0.5
  const ITEM_WIDTH := 0.0

  // History, kept for the conservation laws only: what was placed on the ground, handed in at an
  // office or lost with a retired dog, the recorded scores, and the scores the session started with.
  datatype Ledger = Ledger(
    placed: multiset<BagItem>, delivered: multiset<BagItem>, lost: multiset<BagItem>, recorded: int, opening: int)

  const EMPTY_LEDGER := Ledger(multiset{}, multiset{}, multiset{}, 0, 0)

  datatype SessionState = SessionState(
    world: MapConfig, dogs: map<nat, DogState>, loots: map<nat, Loot>,
    lootIdIncr: nat, waiting: nat, ledger: Ledger)

  function NewSession(m: MapConfig): SessionState { SessionState(m, map[], map[], 0, 0, EMPTY_LEDGER) }

  // A grid point that the spawn code can draw: on the centreline of some road.
  ghost predicate SpawnPoint(m: MapConfig, c: Cell) {
    exists i: nat :: i < |m.roads| && OnCentreline(m.roads[i], c.ToVec())
  }

  // The int bag capacity of a map, converted to the size_t of a dog.
  function Capacity(m: MapConfig): nat { m.bagCapacity % 0x1_0000_0000_0000_0000 }

  function WithDog(s: SessionState, id: nat, d: DogState): SessionState { s.(dogs := Emplace(s.dogs, id, d)) }

  // ---------- Lost things ----------

  ghost predicate LegalLoot(m: MapConfig, l: Loot) {
    0 <= l.kind < m.lootTypes && exists c: Cell :: SpawnPoint(m, c) && l.pos == c.ToVec()
  }

  // loots_.emplace(loot_id_incr_++, loot): an id already in use keeps its old entry.
  function Placed(s: SessionState, l: Loot): SessionState {
    var id := s.lootIdIncr;
    if id in s.loots then s.(lootIdIncr := id + 1)
    else s.(lootIdIncr := id + 1, loots := s.loots[id := l],
            ledger := s.ledger.(placed := s.ledger.placed + multiset{BagItem(id, l.kind)}))
  }

  // The state after the first n of the drawn things were placed.
  function AllPlaced(s: SessionState, drawn: seq<Loot>, n: nat): (r: SessionState)
    requires n <= |drawn|
    ensures r.dogs == s.dogs && r.world == s.world
  {
    if n == 0 then s else Placed(AllPlaced(s, drawn, n - 1), drawn[n - 1])
  }

  // The generator's waiting time restarts when it gives something.
  function Waited(s: SessionState, dt: nat, drawn: seq<Loot>): SessionState {
    s.(waiting := if |drawn| > 0 then 0 else s.waiting + dt)
  }

  function LootGenerated(s: SessionState, dt: nat, drawn: seq<Loot>): (r: SessionState)
    ensures r.dogs == s.dogs && r.world == s.world
  {
    AllPlaced(Waited(s, dt, drawn), drawn, |drawn|)
  }

  // ---------- Collision events ----------

  function LootItems(loots: map<nat, Loot>, order: seq<nat>): seq<Item>
    requires forall k :: 0 <= k < |order| ==> order[k] in loots
  {
    seq(|order|, k requires 0 <= k < |order| => Item(loots[order[k]].pos, ITEM_WIDTH / 2.0, order[k]))
  }

  function OfficeItems(offices: seq<Cell>): seq<Item> {
    seq(|offices|, k requires 0 <= k < |offices| => Item(offices[k].ToVec(), OFFICE_WIDTH / 2.0, FIRST_OFFICE_ID + k))
  }

  function ScoreByIdx(m: MapConfig, kind: int): int {
    if 0 <= kind < |m.scoreValues| then m.scoreValues[kind] else 0
  }

  function BagScore(m: MapConfig, bag: seq<BagItem>, n: nat): int
    requires n <= |bag|
  {
    if n == 0 then 0 else BagScore(m, bag, n - 1) + ScoreByIdx(m, bag[n - 1].kind)
  }

  predicate HasRoom(d: DogState) { |d.bag| < d.maxBagSize }

  // A visit to an office: the bag is emptied and every item in it scores.
  function Delivered(s: SessionState, id: nat): SessionState
    requires id in s.dogs
  {
    var d := s.dogs[id];
    s.(dogs := s.dogs[id := d.(bag := [], score := d.score + BagScore(s.world, d.bag, |d.bag|))],
       ledger := s.ledger.(delivered := s.ledger.delivered + multiset(d.bag)))
  }

  // A lost thing goes from the ground into the bag.
  function PickedUp(s: SessionState, id: nat, item: nat): SessionState
    requires id in s.dogs && item in s.loots
  {
    var d := s.dogs[id];
    s.(dogs := s.dogs[id := d.(bag := d.bag + [BagItem(item, s.loots[item].kind)])], loots := Erase(s.loots, item))
  }

  // One turn of the event loop.
  function Handled(s: SessionState, e: Event): SessionState {
    if e.gathererId !in s.dogs then s
    else if e.itemId >= FIRST_OFFICE_ID then Delivered(s, e.gathererId)
    else if e.itemId in s.loots && HasRoom(s.dogs[e.gathererId]) then PickedUp(s, e.gathererId, e.itemId)
    else s
  }

  // The state after the first n events.
  function AfterEvents(s: SessionState, events: seq<Event>, n: nat): SessionState
    requires n <= |events|
  {
    if n == 0 then s else Handled(AfterEvents(s, events, n - 1), events[n - 1])
  }

  // ---------- Retirement ----------

  datatype Record = Record(name: string, score: int, playTime: nat)

  // A dog to be removed, with the record saved for it when its stop time ran out.
  datatype Retiree = Retiree(id: nat, record: Record)

  function Removed(s: SessionState, r: Retiree): SessionState {
    var bag := if r.id in s.dogs then multiset(s.dogs[r.id].bag) else multiset{};
    s.(dogs := Erase(s.dogs, r.id),
       ledger := s.ledger.(lost := s.ledger.lost + bag, recorded := s.ledger.recorded + r.record.score))
  }

  ghost predicate Listed(rs: seq<Retiree>, n: nat, id: nat)
    requires n <= |rs|
  {
    exists k :: 0 <= k < n && rs[k].id == id
  }

  // The state after the first n removals.
  function AllRemoved(s: SessionState, rs: seq<Retiree>, n: nat): SessionState
    requires n <= |rs|
  {
    if n == 0 then s else Removed(AllRemoved(s, rs, n - 1), rs[n - 1])
  }

  // ---------- The tick ----------

  // Everything a session's tick does not decide by itself: how much loot the generator's chance
  // gives and what is drawn, the orders in which containers and the road index hand things out, and
  // the order of events at equal times.
  datatype TickChoice = TickChoice(
    chance: real, drawn: seq<Loot>, lootOrder: seq<nat>, routes: map<nat, seq<nat>>,
    sweeps: seq<Gatherer>, events: seq<Event>, retirees: seq<Retiree>)

  ghost predicate LegalRoutes(s: SessionState, routes: map<nat, seq<nat>>) {
    forall id: nat :: id in s.dogs ==> id in routes && IsQuery(s.world.roads, s.dogs[id].coord, routes[id])
  }

  function Moved(s: SessionState, dt: nat, routes: map<nat, seq<nat>>): SessionState
    requires forall id: nat :: id in s.dogs ==> id in routes && InRange(s.world.roads, routes[id])
  {
    s.(dogs := map id: nat | id in s.dogs :: Advanced(s.world.roads, s.dogs[id], dt, routes[id]))
  }

  // The sweeps of the dogs that moved, each once, in the order the dogs were visited.
  ghost predicate LegalSweeps(s: SessionState, dt: nat, routes: map<nat, seq<nat>>, sweeps: seq<Gatherer>)
    requires LegalRoutes(s, routes)
  {
    && (forall k :: 0 <= k < |sweeps| ==>
          && sweeps[k].id in s.dogs
          && Sweep(s.world.roads, sweeps[k].id, s.dogs[sweeps[k].id], dt, routes[sweeps[k].id]) == Some(sweeps[k]))
    && (forall i, j :: 0 <= i < j < |sweeps| ==> sweeps[i].id != sweeps[j].id)
    && (forall id: nat :: id in s.dogs && Sweep(s.world.roads, id, s.dogs[id], dt, routes[id]).Some? ==>
        Swept(sweeps, id))
  }

  ghost predicate Swept(sweeps: seq<Gatherer>, id: nat) { exists k :: 0 <= k < |sweeps| && sweeps[k].id == id }

  function RecordOf(d: DogState): Record { Record(d.name, d.score, d.lifeTime) }

  // A dog whose stop time runs out in this tick, with the record that its turn of the loop saves.
  ghost predicate RetiresAs(s: SessionState, retirement: nat, dt: nat, r: Retiree) {
    && r.id in s.dogs
    && Expires(retirement, s.dogs[r.id], dt)
    && r.record == RecordOf(s.dogs[r.id].(lifeTime := s.dogs[r.id].lifeTime + dt))
  }

  // The dogs whose stop time runs out, each once, in the order the dogs were visited.
  ghost predicate LegalRetirees(s: SessionState, retirement: nat, dt: nat, rs: seq<Retiree>) {
    && (forall k :: 0 <= k < |rs| ==> RetiresAs(s, retirement, dt, rs[k]))
    && (forall i, j :: 0 <= i < j < |rs| ==> rs[i].id != rs[j].id)
    && (forall id: nat :: id in s.dogs && Expires(retirement, s.dogs[id], dt) ==> Listed(rs, |rs|, id))
  }

  // As many things are drawn as the loot generator asks for.
  ghost predicate LegalDraw(s: SessionState, c: TickChoice) {
    |c.drawn| == Generated(c.chance, |s.loots|, |s.dogs|)
  }

  // The rest of what makes a choice possible.
  ghost predicate LegalTick(s: SessionState, retirement: nat, dt: nat, c: TickChoice) {
    var s1 := LootGenerated(s, dt, c.drawn);
    && (forall k :: 0 <= k < |c.drawn| ==> LegalLoot(s.world, c.drawn[k]))
    && Enumerates(c.lootOrder, s1.loots.Keys)
    && LegalRoutes(s, c.routes)
    && LegalSweeps(s, dt, c.routes, c.sweeps)
    && IsGathering(c.sweeps, LootItems(s1.loots, c.lootOrder) + OfficeItems(s.world.offices), c.events)
    && LegalRetirees(s, retirement, dt, c.retirees)
  }

  function MovedIn(s: SessionState, dt: nat, c: TickChoice): SessionState
    requires forall id: nat :: id in s.dogs ==> id in c.routes && InRange(s.world.roads, c.routes[id])
  {
    Moved(LootGenerated(s, dt, c.drawn), dt, c.routes)
  }

  // The session after its events, before removals.
  function Gathered(s: SessionState, dt: nat, c: TickChoice): SessionState
    requires forall id: nat :: id in s.dogs ==> id in c.routes && InRange(s.world.roads, c.routes[id])
  {
    AfterEvents(MovedIn(s, dt, c), c.events, |c.events|)
  }

  // A session's tick: loot, moves, collision events in time order, and removals last.
  function Ticked(s: SessionState, dt: nat, c: TickChoice): SessionState
    requires forall id: nat :: id in s.dogs ==> id in c.routes && InRange(s.world.roads, c.routes[id])
  {
    AllRemoved(Gathered(s, dt, c), c.retirees, |c.retirees|)
  }

  lemma RoutesInRange(s: SessionState, routes: map<nat, seq<nat>>)
    requires LegalRoutes(s, routes)
    ensures forall id: nat :: id in s.dogs ==> id in routes && InRange(s.world.roads, routes[id])
  {
  }

  lemma MovedDog(s: SessionState, dt: nat, c: TickChoice, id: nat)
    requires LegalRoutes(s, c.routes) && id in s.dogs
    ensures id in MovedIn(s, dt, c).dogs
    ensures MovedIn(s, dt, c).dogs[id] == Advanced(s.world.roads, s.dogs[id], dt, c.routes[id])
  {
  }

  // Every event names a dog of the session that moved in this tick, so its lookup succeeds.
  lemma EventsNameMovers(s: SessionState, retirement: nat, dt: nat, c: TickChoice, k: nat)
    requires LegalTick(s, retirement, dt, c) && k < |c.events|
    ensures var id := c.events[k].gathererId; id in s.dogs && !Still(s.dogs[id], dt)
  {
    var items := LootItems(LootGenerated(s, dt, c.drawn).loots, c.lootOrder) + OfficeItems(s.world.offices);
    EventsAreOutcomes(c.sweeps, items, c.events, c.events[k]);
    var p :| Defined(Outcome, c.sweeps, items, p) && Outcome(c.sweeps[p.g], items[p.i]) == Some(c.events[k]);
    OutcomeInRange(c.sweeps[p.g], items[p.i]);
  }

  // ---------- What the parts of a tick leave alone ----------

  lemma {:induction false} PlacedFrame(s: SessionState, drawn: seq<Loot>, n: nat)
    requires n <= |drawn|
    ensures var r := AllPlaced(s, drawn, n);
            r.waiting == s.waiting && r.lootIdIncr == s.lootIdIncr + n
  {
    if n > 0 {
      PlacedFrame(s, drawn, n - 1);
    }
  }

  // Where an id of the ground comes from: it was there before, or is one of the drawn things, which get the
  // ids from the counter on. An id already in use keeps its old thing.
  lemma {:induction false} DrawnOnGround(s: SessionState, drawn: seq<Loot>, n: nat, id: nat)
    requires n <= |drawn|
    ensures var loots := AllPlaced(s, drawn, n).loots;
            && (id in loots <==> id in s.loots || s.lootIdIncr <= id < s.lootIdIncr + n)
            && (id in s.loots ==> loots[id] == s.loots[id])
            && (id !in s.loots && s.lootIdIncr <= id < s.lootIdIncr + n ==> loots[id] == drawn[id - s.lootIdIncr])
  {
    if n > 0 {
      DrawnOnGround(s, drawn, n - 1, id);
      PlacedFrame(s, drawn, n - 1);
    }
  }

  // What lies on the ground when the dogs of a tick move: a drawn thing has a kind the map knows and lies on
  // the centreline of a road.
  lemma GroundInTick(s: SessionState, retirement: nat, dt: nat, c: TickChoice, id: nat)
    requires LegalTick(s, retirement, dt, c)
    ensures var loots, incr := LootGenerated(s, dt, c.drawn).loots, s.lootIdIncr;
            && (id in loots <==> id in s.loots || incr <= id < incr + |c.drawn|)
            && (id in s.loots ==> loots[id] == s.loots[id])
            && (id in loots && id !in s.loots ==>
                  && loots[id] == c.drawn[id - incr] && 0 <= loots[id].kind < s.world.lootTypes
                  && exists p: Cell :: SpawnPoint(s.world, p) && loots[id].pos == Vec(p.x as real, p.y as real))
  {
    hide SpawnPoint, LegalRoutes, LegalSweeps, LegalRetirees, IsGathering;
    DrawnOnGround(Waited(s, dt, c.drawn), c.drawn, |c.drawn|, id);
    if id !in s.loots && s.lootIdIncr <= id < s.lootIdIncr + |c.drawn| {
      assert LegalLoot(s.world, c.drawn[id - s.lootIdIncr]);
    }
  }

  // Events change bags, scores and the ground, nothing else.
  ghost predicate SameShape(s: SessionState, r: SessionState) {
    && r.world == s.world && r.lootIdIncr == s.lootIdIncr && r.waiting == s.waiting
    && r.dogs.Keys == s.dogs.Keys
  }

  ghost predicate SameButBag(d: DogState, e: DogState) { e == d.(bag := e.bag, score := e.score) }

  lemma {:induction false} EventsFrame(s: SessionState, events: seq<Event>, n: nat)
    requires n <= |events|
    ensures SameShape(s, AfterEvents(s, events, n))
  {
    if n > 0 {
      EventsFrame(s, events, n - 1);
    }
  }

  lemma HandledDog(s: SessionState, e: Event, id: nat)
    requires id in s.dogs
    ensures id in Handled(s, e).dogs && SameButBag(s.dogs[id], Handled(s, e).dogs[id])
  {
  }

  lemma {:induction false} EventsDog(s: SessionState, events: seq<Event>, n: nat, id: nat)
    requires n <= |events| && id in s.dogs
    ensures id in AfterEvents(s, events, n).dogs && SameButBag(s.dogs[id], AfterEvents(s, events, n).dogs[id])
  {
    if n > 0 {
      EventsDog(s, events, n - 1, id);
      HandledDog(AfterEvents(s, events, n - 1), events[n - 1], id);
    }
  }

  lemma {:induction false} EventsLoot(s: SessionState, events: seq<Event>, n: nat, id: nat)
    requires n <= |events| && id in AfterEvents(s, events, n).loots
    ensures id in s.loots && AfterEvents(s, events, n).loots[id] == s.loots[id]
  {
    if n > 0 {
      EventsLoot(s, events, n - 1, id);
    }
  }

  lemma {:induction false} RemovedFrame(s: SessionState, rs: seq<Retiree>, n: nat)
    requires n <= |rs|
    ensures var r := AllRemoved(s, rs, n);
            r.world == s.world && r.loots == s.loots && r.lootIdIncr == s.lootIdIncr && r.waiting == s.waiting
  {
    if n > 0 {
      RemovedFrame(s, rs, n - 1);
    }
  }

  lemma {:induction false} RemovedDog(s: SessionState, rs: seq<Retiree>, n: nat, id: nat)
    requires n <= |rs|
    ensures id in AllRemoved(s, rs, n).dogs <==> id in s.dogs && !Listed(rs, n, id)
    ensures id in AllRemoved(s, rs, n).dogs ==> AllRemoved(s, rs, n).dogs[id] == s.dogs[id]
  {
    if n > 0 {
      RemovedDog(s, rs, n - 1, id);
      assert Listed(rs, n, id) <==> Listed(rs, n - 1, id) || rs[n - 1].id == id;
    }
  }

  lemma TickFrame(s: SessionState, dt: nat, c: TickChoice)
    requires LegalRoutes(s, c.routes)
    ensures var r := Ticked(s, dt, c);
            && r.world == s.world && r.lootIdIncr == s.lootIdIncr + |c.drawn|
            && r.waiting == (if |c.drawn| > 0 then 0 else s.waiting + dt)
  {
    PlacedFrame(Waited(s, dt, c.drawn), c.drawn, |c.drawn|);
    EventsFrame(MovedIn(s, dt, c), c.events, |c.events|);
    RemovedFrame(Gathered(s, dt, c), c.retirees, |c.retirees|);
  }

  lemma GatheredDog(s: SessionState, dt: nat, c: TickChoice, id: nat)
    requires LegalRoutes(s, c.routes)
    ensures id in Gathered(s, dt, c).dogs <==> id in s.dogs
    ensures id in s.dogs ==>
        SameButBag(Advanced(s.world.roads, s.dogs[id], dt, c.routes[id]), Gathered(s, dt, c).dogs[id])
  {
    EventsFrame(MovedIn(s, dt, c), c.events, |c.events|);
    if id in s.dogs {
      MovedDog(s, dt, c, id);
      EventsDog(MovedIn(s, dt, c), c.events, |c.events|, id);
    }
  }

  // After a tick a session has exactly the dogs that did not expire, moved by one step; the events
  // changed no more than their bags and scores.
  lemma TickedDog(s: SessionState, retirement: nat, dt: nat, c: TickChoice, id: nat)
    requires LegalTick(s, retirement, dt, c)
    ensures var r := Ticked(s, dt, c);
            && (id in r.dogs <==> id in s.dogs && !Expires(retirement, s.dogs[id], dt))
            && (id in r.dogs ==> SameButBag(Advanced(s.world.roads, s.dogs[id], dt, c.routes[id]), r.dogs[id]))
  {
    RemovedDog(Gathered(s, dt, c), c.retirees, |c.retirees|, id);
    GatheredDog(s, dt, c, id);
  }
}
