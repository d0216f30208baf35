/** Who gets what in one tick's event loop, and what the loop keeps. */
module Arrival {
  import opened Wrappers
  import opened Gather
  import opened Dogs
  import opened Sessions
  import Sums

  // ---------- What one event does ----------

  // The values the map lists for the kinds of what is in the bag, thing by thing.
  ghost predicate ValuesOf(m: MapConfig, bag: seq<BagItem>, values: seq<int>) {
    && |values| == |bag|
    && forall k :: 0 <= k < |bag| ==>
        0 <= bag[k].kind < |m.scoreValues| && values[k] == m.scoreValues[bag[k].kind]
  }

  lemma {:induction false} BagScoreAddsUp(m: MapConfig, bag: seq<BagItem>, values: seq<int>, n: nat)
    requires ValuesOf(m, bag, values) && n <= |bag|
    ensures BagScore(m, bag, n) == Sums.SumUpTo(values, n)
  {
    if n > 0 {
      BagScoreAddsUp(m, bag, values, n - 1);
    }
  }

  // Dog id has handed in its bag for these values; nothing else has changed.
  ghost predicate HandedIn(s: SessionState, r: SessionState, id: nat, values: seq<int>)
    requires id in s.dogs
  {
    var d := s.dogs[id];
    && r.dogs == s.dogs[id := d.(bag := [], score := d.score + Sums.SumUpTo(values, |values|))]
    && r.ledger == s.ledger.(delivered := s.ledger.delivered + multiset(d.bag))
    && r == s.(dogs := r.dogs, ledger := r.ledger)
  }

  lemma HandsIn(s: SessionState, id: nat)
    requires id in s.dogs
    ensures forall values ::
        ValuesOf(s.world, s.dogs[id].bag, values) ==> HandedIn(s, Delivered(s, id), id, values)
  {
    hide BagScore;
    forall values | ValuesOf(s.world, s.dogs[id].bag, values) ensures HandedIn(s, Delivered(s, id), id, values) {
      BagScoreAddsUp(s.world, s.dogs[id].bag, values, |values|);
    }
  }

  // An event that counts as a visit empties the dog's bag, and its score grows by the values that the map
  // lists for the kinds of the things in it.
  lemma VisitScores(s: SessionState, events: seq<Event>, k: nat, values: seq<int>)
    requires k < |events| && events[k].itemId >= 9999 && events[k].gathererId in AfterEvents(s, events, k).dogs
    requires ValuesOf(s.world, AfterEvents(s, events, k).dogs[events[k].gathererId].bag, values)
    ensures HandedIn(AfterEvents(s, events, k), AfterEvents(s, events, k + 1), events[k].gathererId, values)
  {
    hide ValuesOf, HandedIn;
    EventsFrame(s, events, k);
    HandsIn(AfterEvents(s, events, k), events[k].gathererId);
  }

  // Dog id has taken the thing off the ground, into its bag behind what it held; nothing else has changed.
  ghost predicate Taken(s: SessionState, r: SessionState, id: nat, item: nat)
    requires id in s.dogs && item in s.loots
  {
    var d := s.dogs[id];
    && r.dogs == s.dogs[id := d.(bag := d.bag + [BagItem(item, s.loots[item].kind)])]
    && r.loots.Keys == s.loots.Keys - {item} && (forall j: nat :: j in r.loots ==> r.loots[j] == s.loots[j])
    && r == s.(dogs := r.dogs, loots := r.loots)
  }

  // Any other event takes its thing if that is on the ground and fits into the bag, and changes nothing if not.
  lemma FindTakes(s: SessionState, events: seq<Event>, k: nat)
    requires k < |events| && events[k].itemId < 9999 && events[k].gathererId in AfterEvents(s, events, k).dogs
    ensures var t, id, item := AfterEvents(s, events, k), events[k].gathererId, events[k].itemId;
            if item in t.loots && |t.dogs[id].bag| < t.dogs[id].maxBagSize
            then Taken(t, AfterEvents(s, events, k + 1), id, item)
            else AfterEvents(s, events, k + 1) == t
  {
  }

  // ---------- Who takes a thing ----------

  // The dog of event k has room at the moment the loop reaches it.
  ghost predicate RoomAt(s: SessionState, events: seq<Event>, k: nat)
    requires k < |events|
  {
    var t := AfterEvents(s, events, k);
    var id := events[k].gathererId;
    id in t.dogs && |t.dogs[id].bag| < t.dogs[id].maxBagSize
  }

  // Event k is about item and finds its dog with room, after whatever happened earlier in the tick.
  ghost predicate CanTake(s: SessionState, events: seq<Event>, k: nat, item: nat)
    requires k < |events|
  {
    events[k].itemId == item && RoomAt(s, events, k)
  }

  ghost predicate NoneTakes(s: SessionState, events: seq<Event>, n: nat, item: nat)
    requires n <= |events|
  {
    forall k: nat :: k < n ==> !CanTake(s, events, k, item)
  }

  // Until some event can take it, an item stays on the ground.
  lemma {:induction false} StaysUntilTaken(s: SessionState, events: seq<Event>, n: nat, item: nat)
    requires item in s.loots && n <= |events| && NoneTakes(s, events, n, item)
    ensures item in AfterEvents(s, events, n).loots
  {
    if n > 0 {
      StaysUntilTaken(s, events, n - 1, item);
      assert !CanTake(s, events, n - 1, item);
    }
  }

  lemma {:induction false} NeverReturns(s: SessionState, events: seq<Event>, m: nat, n: nat, item: nat)
    requires m <= n <= |events| && item !in AfterEvents(s, events, m).loots
    ensures item !in AfterEvents(s, events, n).loots
  {
    if m < n {
      NeverReturns(s, events, m, n - 1, item);
    }
  }

  // The first event on an item that finds its dog with room takes it, whatever the order of ties:
  // just before it the item is on the ground, just after it is the last thing in that dog's bag, and
  // the item is not on the ground again in this tick.
  lemma FirstWithRoomTakes(s: SessionState, events: seq<Event>, k: nat, item: nat)
    requires item in s.loots && item < FIRST_OFFICE_ID && k < |events|
    requires CanTake(s, events, k, item) && NoneTakes(s, events, k, item)
    ensures item in AfterEvents(s, events, k).loots
    ensures Taken(AfterEvents(s, events, k), AfterEvents(s, events, k + 1), events[k].gathererId, item)
    ensures AfterEvents(s, events, k).loots[item] == s.loots[item]
    ensures item !in AfterEvents(s, events, |events|).loots
  {
    StaysUntilTaken(s, events, k, item);
    EventsLoot(s, events, k, item);
    NeverReturns(s, events, k + 1, |events|, item);
  }

  // In a time-sorted loop that event is the earliest of all that could have taken the item.
  lemma TakerIsEarliest(s: SessionState, events: seq<Event>, k: nat, j: nat, item: nat)
    requires SortedByTime(events) && k < |events| && j < |events|
    requires NoneTakes(s, events, k, item) && CanTake(s, events, j, item)
    ensures events[k].time <= events[j].time
  {
  }

  lemma {:induction false} FirstTaker(s: SessionState, events: seq<Event>, n: nat, item: nat) returns (k: nat)
    requires n <= |events| && !NoneTakes(s, events, n, item)
    ensures k < n && CanTake(s, events, k, item) && NoneTakes(s, events, k, item)
  {
    if NoneTakes(s, events, n - 1, item) {
      k := n - 1;
    } else {
      k := FirstTaker(s, events, n - 1, item);
    }
  }

  // An item is left on the ground exactly when every event on it found its dog full.
  lemma LeftIffAllFull(s: SessionState, events: seq<Event>, item: nat)
    requires item in s.loots && item < FIRST_OFFICE_ID
    ensures item in AfterEvents(s, events, |events|).loots <==>
            forall k: nat :: k < |events| && events[k].itemId == item ==> !RoomAt(s, events, k)
  {
    if NoneTakes(s, events, |events|, item) {
      StaysUntilTaken(s, events, |events|, item);
      forall k: nat | k < |events| && events[k].itemId == item ensures !RoomAt(s, events, k) {
        assert !CanTake(s, events, k, item);
      }
    } else {
      var k := FirstTaker(s, events, |events|, item);
      FirstWithRoomTakes(s, events, k, item);
    }
  }

  // The k-th office as the collision detector sees it.
  function OfficeItem(m: MapConfig, k: nat): Item
    requires k < |m.offices|
  {
    Item(m.offices[k].ToVec(), OFFICE_WIDTH / 2.0, FIRST_OFFICE_ID + k)
  }

  ghost predicate MeetsOffice(s: SessionState, c: TickChoice, e: Event) {
    exists j: nat, k: nat ::
        j < |c.sweeps| && k < |s.world.offices| && Outcome(c.sweeps[j], OfficeItem(s.world, k)) == Some(e)
  }

  ghost predicate MeetsLoot(s: SessionState, dt: nat, c: TickChoice, e: Event) {
    exists j: nat, id: nat ::
      && j < |c.sweeps| && id in LootGenerated(s, dt, c.drawn).loots
      && Outcome(c.sweeps[j], Item(LootGenerated(s, dt, c.drawn).loots[id].pos, ITEM_WIDTH / 2.0, id)) == Some(e)
  }

  lemma EventMeets(s: SessionState, retirement: nat, dt: nat, c: TickChoice, e: Event)
    requires LegalTick(s, retirement, dt, c) && e in c.events
    ensures MeetsOffice(s, c, e) || MeetsLoot(s, dt, c, e)
  {
    hide Outcome, LegalSweeps, LegalRoutes, LegalRetirees, IsGathering, LootGenerated, LegalLoot;
    var s1 := LootGenerated(s, dt, c.drawn);
    var loots, offices := LootItems(s1.loots, c.lootOrder), OfficeItems(s.world.offices);
    EventsAreOutcomes(c.sweeps, loots + offices, c.events, e);
    var p :| Defined(Outcome, c.sweeps, loots + offices, p) &&
        Outcome(c.sweeps[p.g], (loots + offices)[p.i]) == Some(e);
    if p.i < |loots| {
      var id := c.lootOrder[p.i];
      assert (loots + offices)[p.i] == Item(s1.loots[id].pos, ITEM_WIDTH / 2.0, id);
    } else {
      var k := p.i - |loots|;
      assert (loots + offices)[p.i] == OfficeItem(s.world, k);
    }
  }

  lemma MeetingIds(s: SessionState, dt: nat, c: TickChoice, e: Event)
    ensures MeetsOffice(s, c, e) ==> e.itemId >= FIRST_OFFICE_ID
    ensures MeetsLoot(s, dt, c, e) ==> e.itemId in LootGenerated(s, dt, c.drawn).loots
  {
    hide LootGenerated, Outcome;
    if MeetsOffice(s, c, e) {
      var j: nat, k: nat :| j < |c.sweeps| && k < |s.world.offices| &&
          Outcome(c.sweeps[j], OfficeItem(s.world, k)) == Some(e);
      OutcomeInRange(c.sweeps[j], OfficeItem(s.world, k));
    }
    if MeetsLoot(s, dt, c, e) {
      var j: nat, id: nat :|
        && j < |c.sweeps| && id in LootGenerated(s, dt, c.drawn).loots
        && Outcome(c.sweeps[j], Item(LootGenerated(s, dt, c.drawn).loots[id].pos, ITEM_WIDTH / 2.0, id)) == Some(e);
      OutcomeInRange(c.sweeps[j], Item(LootGenerated(s, dt, c.drawn).loots[id].pos, ITEM_WIDTH / 2.0, id));
    }
  }

  // As long as no lost thing's id has reached the office range, the test on the id tells visits from
  // finds: an event counts as a visit exactly when a sweep met an office.
  lemma VisitsAreOffices(s: SessionState, retirement: nat, dt: nat, c: TickChoice, e: Event)
    requires LegalTick(s, retirement, dt, c) && e in c.events
    requires forall id: nat :: id in LootGenerated(s, dt, c.drawn).loots ==> id < FIRST_OFFICE_ID
    ensures e.itemId >= FIRST_OFFICE_ID <==> MeetsOffice(s, c, e)
    ensures e.itemId < FIRST_OFFICE_ID <==> MeetsLoot(s, dt, c, e)
  {
    hide LegalTick, MeetsOffice, MeetsLoot, LootGenerated;
    EventMeets(s, retirement, dt, c, e);
    MeetingIds(s, dt, c, e);
  }

  // ---------- Who gets a thing in a tick ----------

  // The thing as the collision detector sees it in this tick.
  function ThingItem(s: SessionState, dt: nat, c: TickChoice, item: nat): Item
    requires item in LootGenerated(s, dt, c.drawn).loots
  {
    Item(LootGenerated(s, dt, c.drawn).loots[item].pos, ITEM_WIDTH / 2.0, item)
  }

  // Event k is that of sweep j meeting the thing.
  ghost predicate IsMeeting(s: SessionState, dt: nat, c: TickChoice, item: nat, j: nat, k: nat)
    requires item in LootGenerated(s, dt, c.drawn).loots
  {
    j < |c.sweeps| && k < |c.events| && Outcome(c.sweeps[j], ThingItem(s, dt, c, item)) == Some(c.events[k])
  }

  ghost predicate Reported(s: SessionState, dt: nat, c: TickChoice, item: nat, j: nat)
    requires item in LootGenerated(s, dt, c.drawn).loots
  {
    exists k: nat :: IsMeeting(s, dt, c, item, j, k)
  }

  // Every dog that comes past the thing has an event.
  lemma MeetingIsReported(s: SessionState, retirement: nat, dt: nat, c: TickChoice, item: nat, j: nat)
    requires LegalTick(s, retirement, dt, c) && item in LootGenerated(s, dt, c.drawn).loots
    requires j < |c.sweeps| && Outcome(c.sweeps[j], ThingItem(s, dt, c, item)).Some?
    ensures Reported(s, dt, c, item, j)
  {
    hide Outcome, LegalSweeps, LegalRoutes, LegalRetirees, IsGathering, LootGenerated, LegalLoot;
    var s1, e := LootGenerated(s, dt, c.drawn), Outcome(c.sweeps[j], ThingItem(s, dt, c, item)).value;
    var loots, offices := LootItems(s1.loots, c.lootOrder), OfficeItems(s.world.offices);
    var i :| 0 <= i < |c.lootOrder| && c.lootOrder[i] == item;
    assert (loots + offices)[i] == ThingItem(s, dt, c, item);
    assert Defined(Outcome, c.sweeps, loots + offices, Pair(j, i));
    EventsAreOutcomes(c.sweeps, loots + offices, c.events, e);
    var k :| 0 <= k < |c.events| && c.events[k] == e;
    assert IsMeeting(s, dt, c, item, j, k);
  }

  // Every event about the thing is that of a dog that came past it.
  lemma EventIsMeeting(s: SessionState, retirement: nat, dt: nat, c: TickChoice, item: nat, k: nat) returns (j: nat)
    requires LegalTick(s, retirement, dt, c) && item in LootGenerated(s, dt, c.drawn).loots
    requires item < FIRST_OFFICE_ID && k < |c.events| && c.events[k].itemId == item
    ensures IsMeeting(s, dt, c, item, j, k)
  {
    hide LegalTick, Outcome, LootGenerated;
    var e := c.events[k];
    EventMeets(s, retirement, dt, c, e);
    MeetingIds(s, dt, c, e);
    var g: nat, id: nat :|
      && g < |c.sweeps| && id in LootGenerated(s, dt, c.drawn).loots
      && Outcome(c.sweeps[g], Item(LootGenerated(s, dt, c.drawn).loots[id].pos, ITEM_WIDTH / 2.0, id)) == Some(e);
    OutcomeInRange(c.sweeps[g], Item(LootGenerated(s, dt, c.drawn).loots[id].pos, ITEM_WIDTH / 2.0, id));
    j := g;
  }

  // Removals leave the ground as the events left it.
  lemma TickedGround(s: SessionState, retirement: nat, dt: nat, c: TickChoice)
    requires LegalTick(s, retirement, dt, c)
    ensures LegalRoutes(s, c.routes)
    ensures MovedIn(s, dt, c).loots == LootGenerated(s, dt, c.drawn).loots
    ensures Ticked(s, dt, c).loots == AfterEvents(MovedIn(s, dt, c), c.events, |c.events|).loots
  {
    RemovedFrame(Gathered(s, dt, c), c.retirees, |c.retirees|);
  }

  // A thing on the ground after the draw is left there by the tick if and only if every dog whose sweep met
  // it - each has an event - was full when the loop came to its event.
  lemma TickLeavesIff(s: SessionState, retirement: nat, dt: nat, c: TickChoice, item: nat)
    requires LegalTick(s, retirement, dt, c) && item in LootGenerated(s, dt, c.drawn).loots && item < FIRST_OFFICE_ID
    ensures LegalRoutes(s, c.routes)
    ensures forall j: nat ::
        j < |c.sweeps| && Outcome(c.sweeps[j], ThingItem(s, dt, c, item)).Some? ==> Reported(s, dt, c, item, j)
    ensures item in Ticked(s, dt, c).loots <==>
        forall j: nat, k: nat :: IsMeeting(s, dt, c, item, j, k) ==> !RoomAt(MovedIn(s, dt, c), c.events, k)
  {
    hide LegalTick, Outcome, LootGenerated, Ticked, MovedIn, RoomAt, Reported, LegalRoutes;
    TickedGround(s, retirement, dt, c);
    RoutesInRange(s, c.routes);
    forall j: nat | j < |c.sweeps| && Outcome(c.sweeps[j], ThingItem(s, dt, c, item)).Some?
      ensures Reported(s, dt, c, item, j)
    {
      MeetingIsReported(s, retirement, dt, c, item, j);
    }
    LeftIffAllFull(MovedIn(s, dt, c), c.events, item);
    forall j: nat, k: nat | IsMeeting(s, dt, c, item, j, k) ensures c.events[k].itemId == item {
      OutcomeInRange(c.sweeps[j], ThingItem(s, dt, c, item));
    }
    forall k: nat | k < |c.events| && c.events[k].itemId == item
      ensures exists j: nat :: IsMeeting(s, dt, c, item, j, k)
    {
      var j := EventIsMeeting(s, retirement, dt, c, item, k);
    }
  }

  // Otherwise the dog of event k has it: it came past the thing, had room when the loop came to its event,
  // and no other dog that did came past earlier. The event puts the thing into its bag.
  lemma TickGives(s: SessionState, retirement: nat, dt: nat, c: TickChoice, item: nat) returns (j: nat, k: nat)
    requires LegalTick(s, retirement, dt, c) && item in LootGenerated(s, dt, c.drawn).loots && item < FIRST_OFFICE_ID
    requires LegalRoutes(s, c.routes) && item !in Ticked(s, dt, c).loots
    ensures IsMeeting(s, dt, c, item, j, k) && c.events[k].gathererId == c.sweeps[j].id
    ensures var s2 := MovedIn(s, dt, c);
            && RoomAt(s2, c.events, k)
            && (forall i: nat :: i < |c.events| && CanTake(s2, c.events, i, item) ==>
                c.events[k].time <= c.events[i].time)
            && item in AfterEvents(s2, c.events, k).loots
            && Taken(AfterEvents(s2, c.events, k), AfterEvents(s2, c.events, k + 1), c.sweeps[j].id, item)
  {
    hide LegalTick, Outcome, LootGenerated, Ticked, MovedIn, LegalRoutes, Handled, Taken, SortedByTime;
    TickedGround(s, retirement, dt, c);
    RoutesInRange(s, c.routes);
    var s2 := MovedIn(s, dt, c);
    if NoneTakes(s2, c.events, |c.events|, item) {
      StaysUntilTaken(s2, c.events, |c.events|, item);
    }
    k := FirstTaker(s2, c.events, |c.events|, item);
    FirstWithRoomTakes(s2, c.events, k, item);
    j := EventIsMeeting(s, retirement, dt, c, item, k);
    OutcomeInRange(c.sweeps[j], ThingItem(s, dt, c, item));
    SortedEvents(s, retirement, dt, c);
    forall i: nat | i < |c.events| && CanTake(s2, c.events, i, item) ensures c.events[k].time <= c.events[i].time {
      TakerIsEarliest(s2, c.events, k, i, item);
    }
  }

  lemma SortedEvents(s: SessionState, retirement: nat, dt: nat, c: TickChoice)
    requires LegalTick(s, retirement, dt, c)
    ensures SortedByTime(c.events)
  {
  }

  // A thing whose id has reached the office range is never picked up: its events count as visits.
  lemma {:induction false} OfficeRangeStays(s: SessionState, events: seq<Event>, n: nat, item: nat)
    requires item in s.loots && item >= FIRST_OFFICE_ID && n <= |events|
    ensures item in AfterEvents(s, events, n).loots
  {
    if n > 0 {
      OfficeRangeStays(s, events, n - 1, item);
    }
  }

  // ---------- Bag capacity and kinds ----------

  predicate KindOk(m: MapConfig, kind: int) { 0 <= kind < |m.scoreValues| }

  ghost predicate BagOk(m: MapConfig, d: DogState) {
    |d.bag| <= d.maxBagSize && forall k :: 0 <= k < |d.bag| ==> KindOk(m, d.bag[k].kind)
  }

  // No bag is overfull, and everything on the ground or in a bag has a score value to look up.
  ghost predicate Stocked(s: SessionState) {
    && (forall id: nat :: id in s.dogs ==> BagOk(s.world, s.dogs[id]))
    && (forall id: nat :: id in s.loots ==> KindOk(s.world, s.loots[id].kind))
  }

  lemma {:induction false} PlacedStocked(s: SessionState, drawn: seq<Loot>, n: nat)
    requires Stocked(s) && n <= |drawn| && forall k :: 0 <= k < |drawn| ==> KindOk(s.world, drawn[k].kind)
    ensures Stocked(AllPlaced(s, drawn, n))
  {
    if n > 0 {
      PlacedStocked(s, drawn, n - 1);
    }
  }

  lemma {:induction false} EventsStocked(s: SessionState, events: seq<Event>, n: nat)
    requires Stocked(s) && n <= |events|
    ensures Stocked(AfterEvents(s, events, n))
  {
    if n > 0 {
      EventsStocked(s, events, n - 1);
    }
  }

  lemma MovedStocked(s: SessionState, dt: nat, routes: map<nat, seq<nat>>)
    requires Stocked(s) && LegalRoutes(s, routes)
    ensures Stocked(Moved(s, dt, routes))
  {
    forall id: nat | id in s.dogs ensures BagOk(s.world, Moved(s, dt, routes).dogs[id]) {
      AdvancedKeeps(s.world.roads, s.dogs[id], dt, routes[id]);
    }
  }

  lemma {:induction false} RemovedStocked(s: SessionState, rs: seq<Retiree>, n: nat)
    requires Stocked(s) && n <= |rs|
    ensures Stocked(AllRemoved(s, rs, n))
  {
    if n > 0 {
      RemovedStocked(s, rs, n - 1);
    }
  }

  lemma TickStocked(s: SessionState, retirement: nat, dt: nat, c: TickChoice)
    requires WellFormed(s.world) && Stocked(s) && LegalTick(s, retirement, dt, c)
    ensures Stocked(Ticked(s, dt, c))
  {
    PlacedStocked(Waited(s, dt, c.drawn), c.drawn, |c.drawn|);
    MovedStocked(LootGenerated(s, dt, c.drawn), dt, c.routes);
    EventsStocked(MovedIn(s, dt, c), c.events, |c.events|);
    RemovedStocked(Gathered(s, dt, c), c.retirees, |c.retirees|);
  }
}
