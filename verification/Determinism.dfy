/** What a session's tick does not depend on: the order in which its containers are visited. */
module Determinism {
  import opened Wrappers
  import opened Sums
  import opened Roads
  import opened Movement
  import opened Gather
  import opened StopOrder
  import opened Dogs
  import opened Sessions
  import opened Custody

  // No dog's move depends on the order in which the index lists the roads under it.
  ghost predicate OrderFreeMoves(s: SessionState, dt: nat) {
    forall id: nat :: id in s.dogs ==> OrderFree(s.world.roads, s.dogs[id].coord, Requested(s.dogs[id], dt))
  }

  ghost predicate NoTies(events: seq<Event>) {
    forall i, j :: 0 <= i < j < |events| ==> events[i].time != events[j].time
  }

  lemma SameMoves(s: SessionState, dt: nat, c: map<nat, seq<nat>>, d: map<nat, seq<nat>>)
    requires LegalRoutes(s, c) && LegalRoutes(s, d) && OrderFreeMoves(s, dt)
    ensures Moved(s, dt, c) == Moved(s, dt, d)
    ensures forall id: nat :: id in s.dogs ==>
        Sweep(s.world.roads, id, s.dogs[id], dt, c[id]) == Sweep(s.world.roads, id, s.dogs[id], dt, d[id])
  {
    hide Resolve, Requested;
    forall id: nat | id in s.dogs
      ensures Resolve(s.world.roads, c[id], Requested(s.dogs[id], dt), None) ==
              Resolve(s.world.roads, d[id], Requested(s.dogs[id], dt), None)
    {
      assert OrderFree(s.world.roads, s.dogs[id].coord, Requested(s.dogs[id], dt));
    }
  }

  // ---------- Events ----------

  ghost predicate SameElements<T(!new)>(a: seq<T>, b: seq<T>) { forall x :: x in a <==> x in b }

  lemma SweepsListed(s: SessionState, dt: nat, routes: map<nat, seq<nat>>, sweeps: seq<Gatherer>, g: Gatherer)
    requires LegalRoutes(s, routes) && LegalSweeps(s, dt, routes, sweeps)
    ensures g in sweeps <==> g.id in s.dogs && Sweep(s.world.roads, g.id, s.dogs[g.id], dt, routes[g.id]) == Some(g)
  {
    hide Sweep;
    if g.id in s.dogs && Sweep(s.world.roads, g.id, s.dogs[g.id], dt, routes[g.id]) == Some(g) {
      assert Swept(sweeps, g.id);
    }
  }

  lemma SameSweeps(s: SessionState, dt: nat, c: TickChoice, d: TickChoice)
    requires LegalRoutes(s, c.routes) && LegalRoutes(s, d.routes) && OrderFreeMoves(s, dt)
    requires LegalSweeps(s, dt, c.routes, c.sweeps) && LegalSweeps(s, dt, d.routes, d.sweeps)
    ensures SameElements(c.sweeps, d.sweeps)
  {
    hide Sweep, LegalSweeps, LegalRoutes, OrderFreeMoves, Moved;
    RoutesInRange(s, c.routes);
    RoutesInRange(s, d.routes);
    SameMoves(s, dt, c.routes, d.routes);
    forall g ensures g in c.sweeps <==> g in d.sweeps {
      SweepsListed(s, dt, c.routes, c.sweeps, g);
      SweepsListed(s, dt, d.routes, d.sweeps, g);
    }
  }

  lemma LootItemsListed(loots: map<nat, Loot>, order: seq<nat>, i: Item)
    requires Enumerates(order, loots.Keys)
    ensures i in LootItems(loots, order) <==>
            i.itemId in loots && i == Item(loots[i.itemId].pos, ITEM_WIDTH / 2.0, i.itemId)
  {
    if i.itemId in loots {
      var k :| 0 <= k < |order| && order[k] == i.itemId;
      assert LootItems(loots, order)[k] == Item(loots[i.itemId].pos, ITEM_WIDTH / 2.0, i.itemId);
    }
  }

  lemma SameItems(loots: map<nat, Loot>, offices: seq<Cell>, c: seq<nat>, d: seq<nat>)
    requires Enumerates(c, loots.Keys) && Enumerates(d, loots.Keys)
    ensures SameElements(LootItems(loots, c) + OfficeItems(offices), LootItems(loots, d) + OfficeItems(offices))
  {
    hide LootItems, OfficeItems, Enumerates;
    assert forall k :: 0 <= k < |c| ==> c[k] in loots by { InKeys(loots, c); }
    assert forall k :: 0 <= k < |d| ==> d[k] in loots by { InKeys(loots, d); }
    forall i ensures i in LootItems(loots, c) <==> i in LootItems(loots, d) {
      LootItemsListed(loots, c, i);
      LootItemsListed(loots, d, i);
    }
  }

  lemma InKeys(loots: map<nat, Loot>, order: seq<nat>)
    requires Enumerates(order, loots.Keys)
    ensures forall k :: 0 <= k < |order| ==> order[k] in loots
  {
  }

  lemma SameEvents(gs: seq<Gatherer>, hs: seq<Gatherer>, items: seq<Item>, others: seq<Item>, c: seq<Event>,
      d: seq<Event>)
    requires IsGathering(gs, items, c) && IsGathering(hs, others, d)
    requires SameElements(gs, hs) && SameElements(items, others)
    ensures SameElements(c, d)
  {
    hide IsGathering, Outcome;
    forall e ensures e in c <==> e in d {
      EventsAreOutcomes(gs, items, c, e);
      EventsAreOutcomes(hs, others, d, e);
      if p :| Defined(Outcome, gs, items, p) && Outcome(gs[p.g], items[p.i]) == Some(e) {
        assert gs[p.g] in hs && items[p.i] in others;
        var g :| 0 <= g < |hs| && hs[g] == gs[p.g];
        var i :| 0 <= i < |others| && others[i] == items[p.i];
        assert Defined(Outcome, hs, others, Pair(g, i));
      }
      if p :| Defined(Outcome, hs, others, p) && Outcome(hs[p.g], others[p.i]) == Some(e) {
        assert hs[p.g] in gs && others[p.i] in items;
        var g :| 0 <= g < |gs| && gs[g] == hs[p.g];
        var i :| 0 <= i < |items| && items[i] == others[p.i];
        assert Defined(Outcome, gs, items, Pair(g, i));
      }
    }
  }

  lemma NoneEmpty(c: seq<Event>, d: seq<Event>)
    requires SameElements(c, d) && d != []
    ensures c != []
  {
    assert d[0] in d;
  }

  lemma SameLast(c: seq<Event>, d: seq<Event>)
    requires c != [] && d != [] && SortedByTime(c) && SortedByTime(d) && NoTies(c) && SameElements(c, d)
    ensures c[|c| - 1] == d[|d| - 1]
  {
    var m, n := |c| - 1, |d| - 1;
    assert c[m] in c && d[n] in d;
    var i :| 0 <= i < |c| && c[i] == d[n];
    var j :| 0 <= j < |d| && d[j] == c[m];
    assert c[i].time <= c[m].time && d[j].time <= d[n].time;
  }

  // Two lists of the same events in the order of their times, which all differ, are the same list.
  lemma {:induction false} OneOrder(c: seq<Event>, d: seq<Event>)
    requires SortedByTime(c) && SortedByTime(d) && NoTies(c) && NoTies(d) && SameElements(c, d)
    ensures c == d
    decreases |c|
  {
    if c != [] {
      NoneEmpty(d, c);
      SameLast(c, d);
      WithoutLast(c, d);
      OneOrder(c[..|c| - 1], d[..|d| - 1]);
      assert c == c[..|c| - 1] + [c[|c| - 1]] && d == d[..|d| - 1] + [d[|d| - 1]];
    } else if d != [] {
      NoneEmpty(c, d);
    }
  }

  lemma WithoutLast(c: seq<Event>, d: seq<Event>)
    requires c != [] && d != [] && c[|c| - 1] == d[|d| - 1]
    requires NoTies(c) && NoTies(d) && SameElements(c, d)
    ensures SameElements(c[..|c| - 1], d[..|d| - 1])
  {
    var a, b := c[..|c| - 1], d[..|d| - 1];
    forall e ensures e in a <==> e in b {
      LastOnce(c, e);
      LastOnce(d, e);
    }
  }

  lemma LastOnce(c: seq<Event>, e: Event)
    requires c != [] && NoTies(c)
    ensures e in c[..|c| - 1] <==> e in c && e != c[|c| - 1]
  {
    var n := |c| - 1;
    if e in c && e != c[n] {
      var i :| 0 <= i < |c| && c[i] == e;
      assert c[..n][i] == e;
    }
    if e in c[..n] {
      var i :| 0 <= i < n && c[..n][i] == e;
      assert c[i] == e;
    }
  }

  // ---------- Removals ----------

  lemma OneRemovedLedger(t: SessionState, r: Retiree)
    ensures var u := Removed(t, r);
            && u.ledger == t.ledger.(lost := u.ledger.lost, recorded := u.ledger.recorded)
            && u.ledger.lost + Union(Bags(u.dogs)) == t.ledger.lost + Union(Bags(t.dogs))
  {
    hide Bags, Union;
    DogDrop(t.dogs, r.id);
  }

  lemma {:induction false} RemovedLedger(g: SessionState, rs: seq<Retiree>, n: nat)
    requires n <= |rs|
    ensures var r := AllRemoved(g, rs, n);
            && r.ledger == g.ledger.(lost := r.ledger.lost, recorded := r.ledger.recorded)
            && r.ledger.lost + Union(Bags(r.dogs)) == g.ledger.lost + Union(Bags(g.dogs))
  {
    hide Removed, Bags, Union;
    if n > 0 {
      RemovedLedger(g, rs, n - 1);
      OneRemovedLedger(AllRemoved(g, rs, n - 1), rs[n - 1]);
    }
  }

  function Rest(dogs: map<nat, DogState>, rs: seq<Retiree>, n: nat): map<nat, DogState>
    requires n <= |rs|
  {
    if n == 0 then dogs else Erase(Rest(dogs, rs, n - 1), rs[n - 1].id)
  }

  lemma {:induction false} RestHas(dogs: map<nat, DogState>, rs: seq<Retiree>, n: nat, id: nat)
    requires n <= |rs|
    ensures id in Rest(dogs, rs, n) <==> id in dogs && !Listed(rs, n, id)
    ensures id in Rest(dogs, rs, n) ==> Rest(dogs, rs, n)[id] == dogs[id]
  {
    if n > 0 {
      RestHas(dogs, rs, n - 1, id);
      assert Listed(rs, n, id) <==> Listed(rs, n - 1, id) || rs[n - 1].id == id;
    }
  }

  // The records are those of the dogs as the tick found them.
  lemma {:induction false} RemovedScores(s: SessionState, g: SessionState, retirement: nat, dt: nat, rs: seq<Retiree>,
      n: nat)
    requires n <= |rs| && LegalRetirees(s, retirement, dt, rs)
    ensures AllRemoved(g, rs, n).ledger.recorded + Sum(Scores(Rest(s.dogs, rs, n))) ==
            g.ledger.recorded + Sum(Scores(s.dogs))
  {
    hide Expires;
    if n > 0 {
      RemovedScores(s, g, retirement, dt, rs, n - 1);
      assert RetiresAs(s, retirement, dt, rs[n - 1]);
      assert !Listed(rs, n - 1, rs[n - 1].id);
      RestHas(s.dogs, rs, n - 1, rs[n - 1].id);
      DogDrop(Rest(s.dogs, rs, n - 1), rs[n - 1].id);
    }
  }

  lemma ListedIffExpires(s: SessionState, retirement: nat, dt: nat, rs: seq<Retiree>, id: nat)
    requires LegalRetirees(s, retirement, dt, rs)
    ensures Listed(rs, |rs|, id) <==> id in s.dogs && Expires(retirement, s.dogs[id], dt)
  {
    hide Expires;
    if Listed(rs, |rs|, id) {
      var k :| 0 <= k < |rs| && rs[k].id == id;
      assert RetiresAs(s, retirement, dt, rs[k]);
    }
  }

  lemma SameRemovals(s: SessionState, g: SessionState, retirement: nat, dt: nat, c: seq<Retiree>, d: seq<Retiree>)
    requires LegalRetirees(s, retirement, dt, c) && LegalRetirees(s, retirement, dt, d)
    ensures AllRemoved(g, c, |c|) == AllRemoved(g, d, |d|)
  {
    hide Expires, LegalRetirees, AllRemoved, Rest, Listed, Bags, Scores, Union, Sum;
    var r, q := AllRemoved(g, c, |c|), AllRemoved(g, d, |d|);
    RemovedFrame(g, c, |c|);
    RemovedFrame(g, d, |d|);
    forall id: nat
      ensures id in r.dogs <==> id in q.dogs
      ensures id in r.dogs ==> r.dogs[id] == q.dogs[id]
      ensures id in Rest(s.dogs, c, |c|) <==> id in Rest(s.dogs, d, |d|)
      ensures id in Rest(s.dogs, c, |c|) ==> Rest(s.dogs, c, |c|)[id] == Rest(s.dogs, d, |d|)[id]
    {
      RemovedDog(g, c, |c|, id);
      RemovedDog(g, d, |d|, id);
      RestHas(s.dogs, c, |c|, id);
      RestHas(s.dogs, d, |d|, id);
      ListedIffExpires(s, retirement, dt, c, id);
      ListedIffExpires(s, retirement, dt, d, id);
    }
    assert r.dogs == q.dogs;
    assert Rest(s.dogs, c, |c|) == Rest(s.dogs, d, |d|);
    RemovedLedger(g, c, |c|);
    RemovedLedger(g, d, |d|);
    RemovedScores(s, g, retirement, dt, c, |c|);
    RemovedScores(s, g, retirement, dt, d, |d|);
    SameLost(r.ledger.lost, q.ledger.lost, Union(Bags(r.dogs)));
  }

  lemma SameLost(a: multiset<BagItem>, b: multiset<BagItem>, rest: multiset<BagItem>)
    requires a + rest == b + rest
    ensures a == b
  {
    assert a == a + rest - rest && b == b + rest - rest;
  }

  // ---------- The tick ----------

  // With the same draws, moves that do not depend on the listing of the roads, and no two events at one
  // time, the tick makes the same session of whatever orders its containers are visited in.
  lemma TickIsDetermined(s: SessionState, retirement: nat, dt: nat, c: TickChoice, d: TickChoice)
    requires LegalTick(s, retirement, dt, c) && LegalTick(s, retirement, dt, d) && c.drawn == d.drawn
    requires OrderFreeMoves(s, dt) && NoTies(c.events) && NoTies(d.events)
    ensures c.events == d.events && Ticked(s, dt, c) == Ticked(s, dt, d)
  {
    hide LootGenerated, LegalRoutes, LegalSweeps, LegalRetirees, IsGathering, LootItems, OfficeItems, Enumerates,
        LegalLoot,
        OrderFreeMoves, NoTies, SortedByTime, Moved, AfterEvents, AllRemoved, SameElements;
    var s1 := LootGenerated(s, dt, c.drawn);
    RoutesInRange(s, c.routes);
    RoutesInRange(s, d.routes);
    InKeys(s1.loots, c.lootOrder);
    InKeys(s1.loots, d.lootOrder);
    SameSweeps(s, dt, c, d);
    SameItems(s1.loots, s.world.offices, c.lootOrder, d.lootOrder);
    SameEvents(c.sweeps, d.sweeps, LootItems(s1.loots, c.lootOrder) + OfficeItems(s.world.offices),
               LootItems(s1.loots, d.lootOrder) + OfficeItems(s.world.offices), c.events, d.events);
    GatheringSorted(c.sweeps, LootItems(s1.loots, c.lootOrder) + OfficeItems(s.world.offices), c.events);
    GatheringSorted(d.sweeps, LootItems(s1.loots, d.lootOrder) + OfficeItems(s.world.offices), d.events);
    OneOrder(c.events, d.events);
    SameMovesIn(s, s1, dt, c.routes, d.routes);
    SameRemovals(s, Gathered(s, dt, c), retirement, dt, c.retirees, d.retirees);
  }

  lemma GatheringSorted(gs: seq<Gatherer>, items: seq<Item>, events: seq<Event>)
    requires IsGathering(gs, items, events)
    ensures SortedByTime(events)
  {
  }

  lemma SameMovesIn(s: SessionState, t: SessionState, dt: nat, c: map<nat, seq<nat>>, d: map<nat, seq<nat>>)
    requires LegalRoutes(s, c) && LegalRoutes(s, d) && OrderFreeMoves(s, dt) && t.dogs == s.dogs && t.world == s.world
    ensures LegalRoutes(t, c) && LegalRoutes(t, d) && Moved(t, dt, c) == Moved(t, dt, d)
  {
    hide Moved, IsQuery;
    SameMoves(t, dt, c, d);
  }
}
