/** Where dogs go in a tick, and what they meet on their way. */
module Journeys {
  import opened Wrappers
  import opened Roads
  import opened Movement
  import opened Collision
  import opened Gather
  import opened Dogs
  import opened Sessions
  import opened Arrival

  // In a tick of dt milliseconds a dog covers dt / 1000 times its speed, if one road holds both ends of that
  // way, and keeps its speed; if none does it stops short and loses it. It goes on facing the same side.
  lemma TickMoves(s: SessionState, retirement: nat, dt: nat, c: TickChoice, id: nat, to: Vec)
    requires LegalTick(s, retirement, dt, c) && id in s.dogs && OnRoad(s.world.roads, s.dogs[id].coord)
    requires HeadsFor(s.dogs[id], dt, to)
    ensures var d, r := s.dogs[id], Ticked(s, dt, c);
            id in r.dogs ==>
              && r.dogs[id].direct == d.direct
              && (Clear(s.world.roads, d.coord, to) ==> r.dogs[id].coord == to && r.dogs[id].speed == d.speed)
              && (!Clear(s.world.roads, d.coord, to) ==>
                    r.dogs[id].coord != to && r.dogs[id].speed == Vec(0.0, 0.0))
  {
    hide Clear, Advanced, OnRoad, HeadsFor, LegalSweeps, LegalRetirees, IsGathering;
    TickedDog(s, retirement, dt, c, id);
    MovesAtSpeed(s.world.roads, s.dogs[id], dt, c.routes[id], to);
    AdvancedKeeps(s.world.roads, s.dogs[id], dt, c.routes[id]);
  }

  // ---------- What a sweep is ----------

  lemma SweepsAreWays(s: SessionState, retirement: nat, dt: nat, c: TickChoice, j: nat)
    requires LegalTick(s, retirement, dt, c) && j < |c.sweeps|
    ensures LegalRoutes(s, c.routes)
    ensures var g := c.sweeps[j];
            g.id in s.dogs && g == Gatherer(g.id, s.dogs[g.id].coord, MovedIn(s, dt, c).dogs[g.id].coord, 0.3)
  {
    hide Sweep, Advanced, IsGathering, LegalRetirees, Enumerates, HeadsFor, Requested;
    var id := c.sweeps[j].id;
    HeadsForRequested(s.dogs[id], dt);
    SweepIsWay(s.world.roads, id, s.dogs[id], dt, c.routes[id], Requested(s.dogs[id], dt));
    MovedDog(s, dt, c, id);
  }

  // A dog that is not where it was has a sweep.
  lemma MoverIsSwept(s: SessionState, retirement: nat, dt: nat, c: TickChoice, id: nat) returns (j: nat)
    requires LegalTick(s, retirement, dt, c) && id in s.dogs && LegalRoutes(s, c.routes)
    requires MovedIn(s, dt, c).dogs[id].coord != s.dogs[id].coord
    ensures j < |c.sweeps| && c.sweeps[j].id == id
  {
    hide Resolve, Ahead, IsGathering, LegalRetirees, Enumerates;
    MovedDog(s, dt, c, id);
    assert Sweep(s.world.roads, id, s.dogs[id], dt, c.routes[id]).Some?;
    assert Swept(c.sweeps, id);
    j :| 0 <= j < |c.sweeps| && c.sweeps[j].id == id;
  }

  // ---------- What is met ----------

  // At some fraction of the way from a to b the point is straight off to the side, within the radius.
  ghost predicate Passes(a: Vec, b: Vec, at: Vec, radius: real) { a != b && exists q :: MeetsAt(a, b, at, radius, q) }

  // Dog id comes past the point.
  ghost predicate ComesPast(s: SessionState, dt: nat, c: TickChoice, id: nat, at: Vec, radius: real)
    requires LegalRoutes(s, c.routes) && id in s.dogs
  {
    Passes(s.dogs[id].coord, MovedIn(s, dt, c).dogs[id].coord, at, radius)
  }

  ghost predicate Meets(c: TickChoice, id: nat, item: nat) {
    exists k :: 0 <= k < |c.events| && c.events[k].gathererId == id && c.events[k].itemId == item
  }

  lemma OutcomeIffMet(g: Gatherer, item: Item)
    ensures Outcome(g, item).Some? <==>
            Passes(g.startPos, g.endPos, item.position, g.width + item.width)
  {
    hide TryCollectPoint, MeetsAt;
    if g.startPos != g.endPos {
      CollectedIffMet(g.startPos, g.endPos, item.position, g.width + item.width);
    }
  }

  lemma SweepMeetsIff(s: SessionState, retirement: nat, dt: nat, c: TickChoice, j: nat, item: Item, radius: real)
    requires LegalTick(s, retirement, dt, c) && j < |c.sweeps| && radius == 0.3 + item.width
    ensures LegalRoutes(s, c.routes) && c.sweeps[j].id in s.dogs
    ensures Outcome(c.sweeps[j], item).Some? <==> ComesPast(s, dt, c, c.sweeps[j].id, item.position, radius)
  {
    hide LegalTick, Outcome, MovedIn, Passes;
    SweepsAreWays(s, retirement, dt, c, j);
    OutcomeIffMet(c.sweeps[j], item);
  }

  // A dog has an event about a thing exactly if it comes past it within 0.3, its own half width.
  lemma MeetsThingIff(s: SessionState, retirement: nat, dt: nat, c: TickChoice, id: nat, item: nat)
    requires LegalTick(s, retirement, dt, c) && id in s.dogs
    requires item in LootGenerated(s, dt, c.drawn).loots && item < 9999
    ensures LegalRoutes(s, c.routes)
    ensures Meets(c, id, item) <==> ComesPast(s, dt, c, id, LootGenerated(s, dt, c.drawn).loots[item].pos, 0.3)
  {
    hide LegalTick, Outcome, MeetsAt, LootGenerated, MovedIn;
    RoutesAreLegal(s, retirement, dt, c);
    RoutesInRange(s, c.routes);
    var thing := ThingItem(s, dt, c, item);
    if Meets(c, id, item) {
      var k :| 0 <= k < |c.events| && c.events[k].gathererId == id && c.events[k].itemId == item;
      var j := EventIsMeeting(s, retirement, dt, c, item, k);
      OutcomeInRange(c.sweeps[j], thing);
      SweepMeetsIff(s, retirement, dt, c, j, thing, 0.3);
    }
    if ComesPast(s, dt, c, id, thing.position, 0.3) {
      var j := MoverIsSwept(s, retirement, dt, c, id);
      SweepMeetsIff(s, retirement, dt, c, j, thing, 0.3);
      MeetingIsReported(s, retirement, dt, c, item, j);
      var k: nat :| IsMeeting(s, dt, c, item, j, k);
      OutcomeInRange(c.sweeps[j], thing);
    }
  }

  // The time of an event about a thing is the fraction of the dog's way at which the dog is beside the thing.
  lemma EventTimeIsPassing(s: SessionState, retirement: nat, dt: nat, c: TickChoice, item: nat, k: nat)
    requires LegalTick(s, retirement, dt, c) && k < |c.events| && c.events[k].itemId == item
    requires item in LootGenerated(s, dt, c.drawn).loots && item < 9999
    ensures LegalRoutes(s, c.routes) && c.events[k].gathererId in s.dogs
    ensures var id, pos := c.events[k].gathererId, LootGenerated(s, dt, c.drawn).loots[item].pos;
            MeetsAt(s.dogs[id].coord, MovedIn(s, dt, c).dogs[id].coord, pos, 0.3, c.events[k].time)
  {
    hide LegalTick, Outcome, MeetsAt, LootGenerated, MovedIn;
    var j := EventIsMeeting(s, retirement, dt, c, item, k);
    OutcomeInRange(c.sweeps[j], ThingItem(s, dt, c, item));
    SweepsAreWays(s, retirement, dt, c, j);
  }

  lemma RoutesAreLegal(s: SessionState, retirement: nat, dt: nat, c: TickChoice)
    requires LegalTick(s, retirement, dt, c)
    ensures LegalRoutes(s, c.routes)
  {
  }

  lemma OfficeIsReported(s: SessionState, retirement: nat, dt: nat, c: TickChoice, n: nat, j: nat) returns (k: nat)
    requires LegalTick(s, retirement, dt, c) && n < |s.world.offices|
    requires j < |c.sweeps| && Outcome(c.sweeps[j], OfficeItem(s.world, n)).Some?
    ensures k < |c.events| && Outcome(c.sweeps[j], OfficeItem(s.world, n)) == Some(c.events[k])
  {
    hide Outcome, LegalSweeps, LegalRoutes, LegalRetirees, IsGathering, LootGenerated, LegalLoot;
    var s1, e := LootGenerated(s, dt, c.drawn), Outcome(c.sweeps[j], OfficeItem(s.world, n)).value;
    var loots, offices := LootItems(s1.loots, c.lootOrder), OfficeItems(s.world.offices);
    assert (loots + offices)[|loots| + n] == OfficeItem(s.world, n);
    assert Defined(Outcome, c.sweeps, loots + offices, Pair(j, |loots| + n));
    EventsAreOutcomes(c.sweeps, loots + offices, c.events, e);
    k :| 0 <= k < |c.events| && c.events[k] == e;
  }

  // It has an event about the n-th office exactly if it comes past it within 0.55, half its own and half the
  // office's width.
  lemma MeetsOfficeIff(s: SessionState, retirement: nat, dt: nat, c: TickChoice, id: nat, n: nat)
    requires LegalTick(s, retirement, dt, c) && id in s.dogs && n < |s.world.offices|
    requires forall item: nat :: item in LootGenerated(s, dt, c.drawn).loots ==> item < 9999
    ensures LegalRoutes(s, c.routes)
    ensures var o := s.world.offices[n];
            Meets(c, id, 9999 + n) <==> ComesPast(s, dt, c, id, Vec(o.x as real, o.y as real), 0.55)
  {
    hide LegalTick, Outcome, MeetsAt, LootGenerated, MovedIn;
    RoutesAreLegal(s, retirement, dt, c);
    var office := OfficeItem(s.world, n);
    if Meets(c, id, 9999 + n) {
      var k :| 0 <= k < |c.events| && c.events[k].gathererId == id && c.events[k].itemId == 9999 + n;
      var j := VisitedOffice(s, retirement, dt, c, n, k);
      OutcomeInRange(c.sweeps[j], office);
      SweepMeetsIff(s, retirement, dt, c, j, office, 0.55);
    }
    if ComesPast(s, dt, c, id, office.position, 0.55) {
      var j := MoverIsSwept(s, retirement, dt, c, id);
      SweepMeetsIff(s, retirement, dt, c, j, office, 0.55);
      var k := OfficeIsReported(s, retirement, dt, c, n, j);
      OutcomeInRange(c.sweeps[j], office);
    }
  }

  lemma VisitedOffice(s: SessionState, retirement: nat, dt: nat, c: TickChoice, n: nat, k: nat) returns (j: nat)
    requires LegalTick(s, retirement, dt, c) && n < |s.world.offices|
    requires forall item: nat :: item in LootGenerated(s, dt, c.drawn).loots ==> item < 9999
    requires k < |c.events| && c.events[k].itemId == FIRST_OFFICE_ID + n
    ensures j < |c.sweeps| && Outcome(c.sweeps[j], OfficeItem(s.world, n)) == Some(c.events[k])
  {
    hide LegalTick, Outcome, LootGenerated;
    var e := c.events[k];
    EventMeets(s, retirement, dt, c, e);
    MeetingIds(s, dt, c, e);
    var g: nat, i: nat :|
      g < |c.sweeps| && i < |s.world.offices| && Outcome(c.sweeps[g], OfficeItem(s.world, i)) == Some(e);
    OutcomeInRange(c.sweeps[g], OfficeItem(s.world, i));
    j := g;
  }
}
