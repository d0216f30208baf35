/** Conservation: where every lost thing is, and what the scores account for. */
module Custody {
  import opened Wrappers
  import opened Sums
  import opened Gather
  import opened Dogs
  import opened Sessions

  ghost function Bags(dogs: map<nat, DogState>): map<nat, multiset<BagItem>> {
    map id: nat | id in dogs :: multiset(dogs[id].bag)
  }

  ghost function Scores(dogs: map<nat, DogState>): map<nat, int> {
    map id: nat | id in dogs :: dogs[id].score
  }

  ghost function Ground(loots: map<nat, Loot>): map<nat, multiset<BagItem>> {
    map id: nat | id in loots :: multiset{BagItem(id, loots[id].kind)}
  }

  // Everything placed is, counted with multiplicity, on the ground, in a bag, delivered or lost.
  ghost predicate Conserved(s: SessionState) {
    s.ledger.placed == Union(Ground(s.loots)) + Union(Bags(s.dogs)) + s.ledger.delivered + s.ledger.lost
  }

  // A thing is worth what the map lists for its kind.
  function Price(m: MapConfig): (price: BagItem -> int)
    ensures forall x: BagItem :: 0 <= x.kind < |m.scoreValues| ==> price(x) == m.scoreValues[x.kind]
  {
    (x: BagItem) => if 0 <= x.kind < |m.scoreValues| then m.scoreValues[x.kind] else 0
  }

  // The scores of the dogs present and those on record add up to what was delivered, on top of the
  // scores the session opened with.
  ghost predicate Settled(s: SessionState) {
    Sum(Scores(s.dogs)) + s.ledger.recorded == s.ledger.opening + Worth(Price(s.world), s.ledger.delivered)
  }

  // ---------- The single steps ----------

  lemma GroundUpdate(loots: map<nat, Loot>, id: nat, l: Loot)
    ensures Ground(loots[id := l]) == Ground(loots)[id := multiset{BagItem(id, l.kind)}]
  {
  }

  lemma GroundSet(loots: map<nat, Loot>, id: nat, l: Loot)
    requires id !in loots
    ensures Union(Ground(loots[id := l])) == multiset{BagItem(id, l.kind)} + Union(Ground(loots))
  {
    UnionSet(Ground(loots), id, multiset{BagItem(id, l.kind)});
    GroundUpdate(loots, id, l);
  }

  lemma GroundWithout(loots: map<nat, Loot>, id: nat)
    ensures Ground(Erase(loots, id)) == Erase(Ground(loots), id)
  {
  }

  lemma GroundDrop(loots: map<nat, Loot>, id: nat)
    requires id in loots
    ensures Union(Ground(loots)) == multiset{BagItem(id, loots[id].kind)} + Union(Ground(Erase(loots, id)))
  {
    UnionAt(Ground(loots), id);
    GroundWithout(loots, id);
  }

  lemma BagsSet(dogs: map<nat, DogState>, id: nat, d: DogState)
    ensures Bags(dogs[id := d]) == Bags(dogs)[id := multiset(d.bag)]
  {
  }

  lemma BagsWithout(dogs: map<nat, DogState>, id: nat)
    ensures Bags(Erase(dogs, id)) == Erase(Bags(dogs), id)
  {
  }

  lemma ScoresSet(dogs: map<nat, DogState>, id: nat, d: DogState)
    ensures Scores(dogs[id := d]) == Scores(dogs)[id := d.score]
  {
  }

  lemma ScoresWithout(dogs: map<nat, DogState>, id: nat)
    ensures Scores(Erase(dogs, id)) == Erase(Scores(dogs), id)
  {
  }

  lemma BagTotals(dogs: map<nat, DogState>, id: nat, d: DogState)
    ensures Union(Bags(dogs[id := d])) == multiset(d.bag) + Union(Bags(Erase(dogs, id)))
    ensures id in dogs ==> Union(Bags(dogs)) == multiset(dogs[id].bag) + Union(Bags(Erase(dogs, id)))
  {
    UnionSet(Bags(dogs), id, multiset(d.bag));
    BagsSet(dogs, id, d);
    BagsWithout(dogs, id);
  }

  lemma ScoreTotals(dogs: map<nat, DogState>, id: nat, d: DogState)
    ensures Sum(Scores(dogs[id := d])) == d.score + Sum(Scores(Erase(dogs, id)))
    ensures id in dogs ==> Sum(Scores(dogs)) == dogs[id].score + Sum(Scores(Erase(dogs, id)))
  {
    SumSet(Scores(dogs), id, d.score);
    ScoresSet(dogs, id, d);
    ScoresWithout(dogs, id);
  }

  // Putting dog d in place of an entry, or beside the others.
  lemma DogSet(dogs: map<nat, DogState>, id: nat, d: DogState)
    ensures Union(Bags(dogs[id := d])) == multiset(d.bag) + Union(Bags(Erase(dogs, id)))
    ensures Sum(Scores(dogs[id := d])) == d.score + Sum(Scores(Erase(dogs, id)))
    ensures id in dogs ==> Union(Bags(dogs)) == multiset(dogs[id].bag) + Union(Bags(Erase(dogs, id)))
    ensures id in dogs ==> Sum(Scores(dogs)) == dogs[id].score + Sum(Scores(Erase(dogs, id)))
    ensures id !in dogs ==> Erase(dogs, id) == dogs
  {
    BagTotals(dogs, id, d);
    ScoreTotals(dogs, id, d);
  }

  lemma DogDrop(dogs: map<nat, DogState>, id: nat)
    ensures id in dogs ==> Union(Bags(dogs)) == multiset(dogs[id].bag) + Union(Bags(Erase(dogs, id)))
    ensures id in dogs ==> Sum(Scores(dogs)) == dogs[id].score + Sum(Scores(Erase(dogs, id)))
    ensures id !in dogs ==> Erase(dogs, id) == dogs
  {
    if id in dogs {
      BagTotals(dogs, id, dogs[id]);
      ScoreTotals(dogs, id, dogs[id]);
    }
  }

  lemma {:induction false} BagWorth(m: MapConfig, bag: seq<BagItem>, n: nat)
    requires n <= |bag|
    ensures BagScore(m, bag, n) == Worth(Price(m), multiset(bag[..n]))
  {
    if n > 0 {
      BagWorth(m, bag, n - 1);
      assert bag[..n] == bag[..n - 1] + [bag[n - 1]];
      WorthPlus(Price(m), multiset(bag[..n - 1]), bag[n - 1]);
    }
  }

  // Placing changes the ground and the record of what was placed, nothing else.
  ghost predicate SameAccounts(s: SessionState, t: SessionState) {
    && t.dogs == s.dogs && t.world == s.world
    && t.ledger == s.ledger.(placed := t.ledger.placed)
  }

  lemma PlaceConserves(s: SessionState, l: Loot)
    requires Conserved(s)
    ensures Conserved(Placed(s, l)) && SameAccounts(s, Placed(s, l))
  {
    if s.lootIdIncr !in s.loots {
      GroundSet(s.loots, s.lootIdIncr, l);
    }
  }

  lemma {:induction false} PlacedConserves(s: SessionState, drawn: seq<Loot>, n: nat)
    requires Conserved(s) && n <= |drawn|
    ensures Conserved(AllPlaced(s, drawn, n)) && SameAccounts(s, AllPlaced(s, drawn, n))
  {
    if n > 0 {
      PlacedConserves(s, drawn, n - 1);
      PlaceConserves(AllPlaced(s, drawn, n - 1), drawn[n - 1]);
      assert AllPlaced(s, drawn, n) == Placed(AllPlaced(s, drawn, n - 1), drawn[n - 1]);
    }
  }

  lemma DeliveryConserves(s: SessionState, id: nat)
    requires Conserved(s) && id in s.dogs
    ensures Conserved(Delivered(s, id))
  {
    BagTotals(s.dogs, id, Delivered(s, id).dogs[id]);
  }

  lemma DeliverySettles(s: SessionState, id: nat)
    requires Settled(s) && id in s.dogs
    ensures Settled(Delivered(s, id))
  {
    var bag := s.dogs[id].bag;
    ScoreTotals(s.dogs, id, Delivered(s, id).dogs[id]);
    BagWorth(s.world, bag, |bag|);
    assert bag[..|bag|] == bag;
    WorthAdd(Price(s.world), s.ledger.delivered, multiset(bag));
  }

  lemma PickUpConserves(s: SessionState, id: nat, item: nat)
    requires Conserved(s) && id in s.dogs && item in s.loots
    ensures var r := PickedUp(s, id, item); Conserved(r) && (Settled(s) ==> Settled(r))
  {
    var d, x := s.dogs[id], BagItem(item, s.loots[item].kind);
    var e := d.(bag := d.bag + [x]);
    GroundDrop(s.loots, item);
    DogSet(s.dogs, id, e);
    assert multiset(e.bag) == multiset(d.bag) + multiset{x};
    assert PickedUp(s, id, item).dogs == s.dogs[id := e];
  }

  lemma HandledConserves(s: SessionState, e: Event)
    requires Conserved(s)
    ensures Conserved(Handled(s, e))
    ensures Settled(s) ==> Settled(Handled(s, e))
  {
    if e.gathererId in s.dogs {
      if e.itemId >= FIRST_OFFICE_ID {
        DeliveryConserves(s, e.gathererId);
        if Settled(s) {
          DeliverySettles(s, e.gathererId);
        }
      } else if e.itemId in s.loots {
        PickUpConserves(s, e.gathererId, e.itemId);
      }
    }
  }

  lemma {:induction false} EventsConserve(s: SessionState, events: seq<Event>, n: nat)
    requires Conserved(s) && n <= |events|
    ensures Conserved(AfterEvents(s, events, n))
    ensures Settled(s) ==> Settled(AfterEvents(s, events, n))
  {
    if n > 0 {
      EventsConserve(s, events, n - 1);
      HandledConserves(AfterEvents(s, events, n - 1), events[n - 1]);
    }
  }

  // Record k carries the score of a dog that is present and was not listed before.
  ghost predicate TrueAt(s: SessionState, rs: seq<Retiree>, k: nat)
    requires k < |rs|
  {
    !Listed(rs, k, rs[k].id) && rs[k].id in s.dogs && rs[k].record.score == s.dogs[rs[k].id].score
  }

  ghost predicate TrueRecords(s: SessionState, rs: seq<Retiree>) {
    forall k: nat :: k < |rs| ==> TrueAt(s, rs, k)
  }

  lemma RemoveConserves(s: SessionState, r: Retiree)
    requires Conserved(s)
    ensures Conserved(Removed(s, r))
    ensures Settled(s) && r.id in s.dogs && r.record.score == s.dogs[r.id].score ==> Settled(Removed(s, r))
  {
    DogDrop(s.dogs, r.id);
  }

  lemma {:induction false} RemovedConserves(s: SessionState, rs: seq<Retiree>, n: nat)
    requires Conserved(s) && n <= |rs|
    ensures Conserved(AllRemoved(s, rs, n))
  {
    if n > 0 {
      RemovedConserves(s, rs, n - 1);
      RemoveConserves(AllRemoved(s, rs, n - 1), rs[n - 1]);
      assert AllRemoved(s, rs, n) == Removed(AllRemoved(s, rs, n - 1), rs[n - 1]);
    }
  }

  ghost predicate Balanced(s: SessionState) { Conserved(s) && Settled(s) }

  lemma RemoveNextBalances(s: SessionState, rs: seq<Retiree>, n: nat)
    requires 0 < n <= |rs| && TrueAt(s, rs, n - 1) && Balanced(AllRemoved(s, rs, n - 1))
    ensures Balanced(AllRemoved(s, rs, n))
  {
    RemovedDog(s, rs, n - 1, rs[n - 1].id);
    RemoveConserves(AllRemoved(s, rs, n - 1), rs[n - 1]);
  }

  lemma {:induction false} RemovedBalances(s: SessionState, rs: seq<Retiree>, n: nat)
    requires Balanced(s) && TrueRecords(s, rs) && n <= |rs|
    ensures Balanced(AllRemoved(s, rs, n))
  {
    hide Balanced, TrueAt, Removed;
    if n > 0 {
      RemovedBalances(s, rs, n - 1);
      RemoveNextBalances(s, rs, n);
    }
  }

  ghost predicate SameHoldings(dogs: map<nat, DogState>, other: map<nat, DogState>) {
    && dogs.Keys == other.Keys
    && forall id: nat :: id in dogs ==> dogs[id].bag == other[id].bag && dogs[id].score == other[id].score
  }

  lemma SameBags(dogs: map<nat, DogState>, other: map<nat, DogState>)
    requires SameHoldings(dogs, other)
    ensures Bags(dogs) == Bags(other)
  {
  }

  lemma SameScores(dogs: map<nat, DogState>, other: map<nat, DogState>)
    requires SameHoldings(dogs, other)
    ensures Scores(dogs) == Scores(other)
  {
  }

  lemma MovedHoldings(s: SessionState, dt: nat, routes: map<nat, seq<nat>>)
    requires LegalRoutes(s, routes)
    ensures SameHoldings(s.dogs, Moved(s, dt, routes).dogs)
  {
    forall id: nat | id in s.dogs
      ensures Moved(s, dt, routes).dogs[id].bag == s.dogs[id].bag &&
          Moved(s, dt, routes).dogs[id].score == s.dogs[id].score
    {
      AdvancedKeeps(s.world.roads, s.dogs[id], dt, routes[id]);
    }
  }

  lemma MoveConserves(s: SessionState, dt: nat, c: TickChoice)
    requires LegalRoutes(s, c.routes) && Conserved(s)
    ensures Conserved(MovedIn(s, dt, c))
    ensures Settled(s) ==> Settled(MovedIn(s, dt, c))
  {
    var s1 := LootGenerated(s, dt, c.drawn);
    PlacedConserves(Waited(s, dt, c.drawn), c.drawn, |c.drawn|);
    MovedHoldings(s1, dt, c.routes);
    SameBags(s1.dogs, MovedIn(s, dt, c).dogs);
    SameScores(s1.dogs, MovedIn(s, dt, c).dogs);
  }

  lemma {:induction false} UntouchedByEvents(s: SessionState, events: seq<Event>, n: nat, id: nat)
    requires id in s.dogs && n <= |events| && forall k :: 0 <= k < n ==> events[k].gathererId != id
    ensures id in AfterEvents(s, events, n).dogs && AfterEvents(s, events, n).dogs[id] == s.dogs[id]
  {
    if n > 0 {
      UntouchedByEvents(s, events, n - 1, id);
    }
  }

  lemma StillDogHasNoEvent(s: SessionState, retirement: nat, dt: nat, c: TickChoice, id: nat)
    requires LegalTick(s, retirement, dt, c) && id in s.dogs && Still(s.dogs[id], dt)
    ensures id in Gathered(s, dt, c).dogs && Gathered(s, dt, c).dogs[id] == MovedIn(s, dt, c).dogs[id]
  {
    forall j | 0 <= j < |c.events| ensures c.events[j].gathererId != id {
      EventsNameMovers(s, retirement, dt, c, j);
    }
    UntouchedByEvents(MovedIn(s, dt, c), c.events, |c.events|, id);
  }

  lemma StillDogMoved(s: SessionState, dt: nat, c: TickChoice, id: nat)
    requires LegalRoutes(s, c.routes) && id in s.dogs && Still(s.dogs[id], dt)
    ensures var d := s.dogs[id];
            MovedIn(s, dt, c).dogs[id] == d.(lifeTime := d.lifeTime + dt, stopTime := d.stopTime + dt)
  {
    MovedDog(s, dt, c, id);
    AdvancedStill(s.world.roads, s.dogs[id], dt, c.routes[id]);
  }

  // No event of the tick touches a dog that stands still in it.
  lemma StillDogUntouched(s: SessionState, retirement: nat, dt: nat, c: TickChoice, id: nat)
    requires LegalTick(s, retirement, dt, c) && id in s.dogs && Still(s.dogs[id], dt)
    ensures var d := s.dogs[id];
            && id in Gathered(s, dt, c).dogs
            && Gathered(s, dt, c).dogs[id] == d.(lifeTime := d.lifeTime + dt, stopTime := d.stopTime + dt)
  {
    StillDogHasNoEvent(s, retirement, dt, c, id);
    StillDogMoved(s, dt, c, id);
  }

  // With a positive limit the record saved for a retiring dog is the one its final state would give:
  // its score and bag do not change after it was recorded.
  lemma RecordIsFinal(s: SessionState, retirement: nat, dt: nat, c: TickChoice, r: Retiree)
    requires LegalTick(s, retirement, dt, c) && retirement > 0 && RetiresAs(s, retirement, dt, r)
    ensures r.id in Gathered(s, dt, c).dogs
    ensures var d := Gathered(s, dt, c).dogs[r.id];
            r.record.name == d.name && r.record.score == d.score && r.record.playTime == d.lifeTime &&
            d.bag == s.dogs[r.id].bag
  {
    StillDogUntouched(s, retirement, dt, c, r.id);
  }

  lemma RecordsAreTrue(s: SessionState, retirement: nat, dt: nat, c: TickChoice)
    requires LegalTick(s, retirement, dt, c) && retirement > 0
    ensures TrueRecords(Gathered(s, dt, c), c.retirees)
  {
    forall k: nat | k < |c.retirees| ensures TrueAt(Gathered(s, dt, c), c.retirees, k) {
      RecordIsFinal(s, retirement, dt, c, c.retirees[k]);
    }
  }

  // ---------- The tick ----------

  // Custody is conserved by every tick, whatever the draws, the orders and the retirement limit;
  // with a positive limit the scores and records account for all that was delivered.
  lemma TickConserves(s: SessionState, retirement: nat, dt: nat, c: TickChoice)
    requires LegalTick(s, retirement, dt, c) && Conserved(s)
    ensures Conserved(Ticked(s, dt, c))
    ensures Settled(s) && retirement > 0 ==> Settled(Ticked(s, dt, c))
  {
    MoveConserves(s, dt, c);
    EventsConserve(MovedIn(s, dt, c), c.events, |c.events|);
    RemovedConserves(Gathered(s, dt, c), c.retirees, |c.retirees|);
    if Settled(s) && retirement > 0 {
      RecordsAreTrue(s, retirement, dt, c);
      RemovedBalances(Gathered(s, dt, c), c.retirees, |c.retirees|);
    }
  }

  // A joining dog brings nothing.
  lemma JoinConserves(s: SessionState, id: nat, d: DogState)
    requires Conserved(s) && d.bag == [] && d.score == 0
    ensures Conserved(WithDog(s, id, d))
    ensures Settled(s) ==> Settled(WithDog(s, id, d))
  {
    if id !in s.dogs {
      DogSet(s.dogs, id, d);
    }
  }

  // Replacing a dog by one with the same bag and score, as steering does, moves nothing.
  lemma SteerConserves(s: SessionState, id: nat, d: DogState)
    requires Conserved(s) && id in s.dogs && d.bag == s.dogs[id].bag && d.score == s.dogs[id].score
    ensures Conserved(s.(dogs := s.dogs[id := d]))
    ensures Settled(s) ==> Settled(s.(dogs := s.dogs[id := d]))
  {
    DogSet(s.dogs, id, d);
  }

  // The value law that conservation and settlement give together.
  lemma ValueBalance(s: SessionState)
    requires Conserved(s) && Settled(s)
    ensures var v := Price(s.world);
            Worth(v, s.ledger.placed) + s.ledger.opening ==
              Worth(v, Union(Ground(s.loots))) + Worth(v, Union(Bags(s.dogs))) + Sum(Scores(s.dogs))
              + s.ledger.recorded + Worth(v, s.ledger.lost)
    ensures forall x: BagItem ::
        0 <= x.kind < |s.world.scoreValues| ==> Price(s.world)(x) == s.world.scoreValues[x.kind]
  {
    var v := Price(s.world);
    var g, b := Union(Ground(s.loots)), Union(Bags(s.dogs));
    WorthAdd(v, g + b + s.ledger.delivered, s.ledger.lost);
    WorthAdd(v, g + b, s.ledger.delivered);
    WorthAdd(v, g, b);
  }

  // ---------- Exactly one place ----------

  ghost predicate WasPlaced(s: SessionState, id: nat) { exists kind :: BagItem(id, kind) in s.ledger.placed }

  // Every id below the counter was placed exactly once, nothing else was, and the ground holds only
  // issued ids.
  ghost predicate Issued(s: SessionState) {
    && (forall x :: x in s.ledger.placed ==> s.ledger.placed[x] == 1 && x.id < s.lootIdIncr)
    && (forall x, y :: x in s.ledger.placed && y in s.ledger.placed && x.id == y.id ==> x == y)
    && (forall id: nat :: id < s.lootIdIncr <==> WasPlaced(s, id))
    && (forall id: nat :: id in s.loots ==> id < s.lootIdIncr)
  }

  lemma PlacedIssues(s: SessionState, l: Loot)
    requires Issued(s)
    ensures Issued(Placed(s, l))
    ensures s.lootIdIncr !in s.loots && Placed(s, l).loots == s.loots[s.lootIdIncr := l]
  {
    var x := BagItem(s.lootIdIncr, l.kind);
    var r := Placed(s, l);
    assert x !in s.ledger.placed && x in r.ledger.placed;
    forall id: nat ensures id < r.lootIdIncr <==> WasPlaced(r, id) {
      assert WasPlaced(r, id) <==> id == s.lootIdIncr || WasPlaced(s, id);
    }
  }

  lemma {:induction false} AllPlacedIssues(s: SessionState, drawn: seq<Loot>, n: nat)
    requires Issued(s) && n <= |drawn|
    ensures Issued(AllPlaced(s, drawn, n)) && |AllPlaced(s, drawn, n).loots| == |s.loots| + n
  {
    if n > 0 {
      AllPlacedIssues(s, drawn, n - 1);
      PlacedIssues(AllPlaced(s, drawn, n - 1), drawn[n - 1]);
    }
  }

  lemma {:induction false} EventsPlaceNothing(s: SessionState, events: seq<Event>, n: nat)
    requires n <= |events|
    ensures AfterEvents(s, events, n).ledger.placed == s.ledger.placed
  {
    if n > 0 {
      EventsPlaceNothing(s, events, n - 1);
    }
  }

  lemma {:induction false} RemovalsPlaceNothing(s: SessionState, rs: seq<Retiree>, n: nat)
    requires n <= |rs|
    ensures AllRemoved(s, rs, n).ledger.placed == s.ledger.placed
  {
    if n > 0 {
      RemovalsPlaceNothing(s, rs, n - 1);
    }
  }

  lemma SameIssued(s: SessionState, t: SessionState)
    requires Issued(s) && t.ledger.placed == s.ledger.placed && t.lootIdIncr == s.lootIdIncr &&
        t.loots.Keys <= s.loots.Keys
    ensures Issued(t)
  {
    forall id: nat ensures WasPlaced(t, id) <==> WasPlaced(s, id) {
    }
    assert forall id: nat :: id in t.loots ==> id in s.loots;
  }

  // A tick takes things off the ground only after placing the drawn ones.
  lemma TickLoots(s: SessionState, dt: nat, c: TickChoice)
    requires LegalRoutes(s, c.routes)
    ensures Ticked(s, dt, c).loots.Keys <= LootGenerated(s, dt, c.drawn).loots.Keys
    ensures Ticked(s, dt, c).lootIdIncr == LootGenerated(s, dt, c.drawn).lootIdIncr
  {
    var s2 := MovedIn(s, dt, c);
    EventsFrame(s2, c.events, |c.events|);
    RemovedFrame(Gathered(s, dt, c), c.retirees, |c.retirees|);
    forall id: nat | id in Gathered(s, dt, c).loots ensures id in s2.loots {
      EventsLoot(s2, c.events, |c.events|, id);
    }
  }

  lemma TickIssues(s: SessionState, dt: nat, c: TickChoice)
    requires LegalRoutes(s, c.routes) && Issued(s)
    ensures Issued(Ticked(s, dt, c))
  {
    SameIssued(s, Waited(s, dt, c.drawn));
    AllPlacedIssues(Waited(s, dt, c.drawn), c.drawn, |c.drawn|);
    EventsPlaceNothing(MovedIn(s, dt, c), c.events, |c.events|);
    RemovalsPlaceNothing(Gathered(s, dt, c), c.retirees, |c.retirees|);
    TickLoots(s, dt, c);
    SameIssued(LootGenerated(s, dt, c.drawn), Ticked(s, dt, c));
  }

  ghost function Places(s: SessionState, x: BagItem): nat {
    Union(Ground(s.loots))[x] + Union(Bags(s.dogs))[x] + s.ledger.delivered[x] + s.ledger.lost[x]
  }

  ghost predicate InOnePlace(s: SessionState, id: nat) {
    exists kind :: Places(s, BagItem(id, kind)) == 1 && forall other :: other != kind ==>
        Places(s, BagItem(id, other)) == 0
  }

  ghost predicate Nowhere(s: SessionState, id: nat) { forall kind :: Places(s, BagItem(id, kind)) == 0 }

  // No id was ever placed twice.
  ghost predicate Once(s: SessionState) {
    && (forall x :: x in s.ledger.placed ==> s.ledger.placed[x] == 1)
    && (forall x, y :: x in s.ledger.placed && y in s.ledger.placed && x.id == y.id ==> x == y)
  }

  // Then every id that was placed is in exactly one place - on the ground, in one dog's bag, delivered or
  // lost - and no other id is anywhere.
  lemma OnePlaceEach(s: SessionState, id: nat)
    requires Conserved(s) && Once(s)
    ensures WasPlaced(s, id) ==> InOnePlace(s, id)
    ensures !WasPlaced(s, id) ==> Nowhere(s, id)
  {
    forall x: BagItem ensures Places(s, x) == s.ledger.placed[x] {
    }
    if WasPlaced(s, id) {
      var kind :| BagItem(id, kind) in s.ledger.placed;
      assert Places(s, BagItem(id, kind)) == 1;
    }
  }

  // Every issued id is in exactly one place, and no other id is anywhere.
  lemma ExactlyOnePlace(s: SessionState, id: nat)
    requires Conserved(s) && Issued(s)
    ensures if id < s.lootIdIncr then InOnePlace(s, id) else Nowhere(s, id)
  {
    OnePlaceEach(s, id);
  }

  // No bag slot of any dog repeats an id held anywhere else in the session.
  lemma BagIdsUnique(s: SessionState, d: nat, e: nat, i: nat, j: nat)
    requires Conserved(s) && Issued(s) && d in s.dogs && e in s.dogs
    requires i < |s.dogs[d].bag| && j < |s.dogs[e].bag| && s.dogs[d].bag[i].id == s.dogs[e].bag[j].id
    ensures d == e && i == j && s.dogs[d].bag[i].id !in s.loots
  {
    var x, y := s.dogs[d].bag[i], s.dogs[e].bag[j];
    var all := Union(Bags(s.dogs));
    assert all[x] >= 1 && all[y] >= 1 by {
      DogDrop(s.dogs, d);
      DogDrop(s.dogs, e);
      assert x in multiset(s.dogs[d].bag) && y in multiset(s.dogs[e].bag);
    }
    assert x in s.ledger.placed && y in s.ledger.placed && x == y;
    assert all[x] <= 1;
    if d != e {
      TwoBags(s.dogs, d, e, x);
    } else if i != j {
      TwiceInBag(s.dogs[d].bag, i, j);
      DogDrop(s.dogs, d);
    }
    if x.id in s.loots {
      GroundDrop(s.loots, x.id);
    }
  }

  lemma TwoBags(dogs: map<nat, DogState>, d: nat, e: nat, x: BagItem)
    requires d in dogs && e in dogs && d != e && x in dogs[d].bag && x in dogs[e].bag
    ensures Union(Bags(dogs))[x] >= 2
  {
    DogDrop(dogs, d);
    DogDrop(Erase(dogs, d), e);
    assert (Erase(dogs, d))[e] == dogs[e];
    assert x in multiset(dogs[d].bag) && x in multiset(dogs[e].bag);
  }

  lemma TwiceInBag(bag: seq<BagItem>, i: nat, j: nat)
    requires i < |bag| && j < |bag| && i != j && bag[i] == bag[j]
    ensures multiset(bag)[bag[i]] >= 2
  {
    var a, b := if i < j then i else j, if i < j then j else i;
    assert bag == bag[..b] + bag[b..] && bag[..b][a] == bag[i] && bag[b..][0] == bag[i];
    assert multiset(bag) == multiset(bag[..b]) + multiset(bag[b..]);
    assert bag[i] in multiset(bag[..b]) && bag[i] in multiset(bag[b..]);
  }
}
