/** The game session object, updated in place; what it holds is a value of module Sessions. */
module SessionModel {
  import opened Wrappers
  import opened Roads
  import opened Gather
  import opened LootGeneration
  import opened Dogs
  import opened DogModel
  import opened RoadIndex
  import opened Sessions

  function Views(dogs: map<nat, Dog>): map<nat, DogState>
    reads dogs.Values
  {
    map id: nat | id in dogs :: dogs[id].View()
  }

  // No two entries of the table are the same object.
  ghost predicate Apart(dogs: map<nat, Dog>) {
    forall i, j :: i in dogs && j in dogs && i != j ==> dogs[i] != dogs[j]
  }

  lemma ViewsCount(dogs: map<nat, Dog>)
    ensures |Views(dogs)| == |dogs|
  {
    assert Views(dogs).Keys == dogs.Keys;
    assert |Views(dogs)| == |Views(dogs).Keys| && |dogs| == |dogs.Keys|;
  }

  lemma EmplacedViews(dogs: map<nat, Dog>, id: nat, dog: Dog)
    ensures Views(Emplace(dogs, id, dog)) == Emplace(Views(dogs), id, dog.View())
    ensures Apart(dogs) && dog !in dogs.Values ==> Apart(Emplace(dogs, id, dog))
  {
  }

  lemma ErasedViews(dogs: map<nat, Dog>, id: nat)
    ensures Views(Erase(dogs, id)) == Erase(Views(dogs), id)
    ensures Apart(dogs) ==> Apart(Erase(dogs, id))
    ensures id !in dogs ==> Erase(dogs, id) == dogs
  {
  }

  lemma DrawnIsLegal(m: MapConfig, loot: Loot, c: Cell)
    requires 0 <= loot.kind < m.lootTypes && SpawnPoint(m, c) && loot.pos == c.ToVec()
    ensures LegalLoot(m, loot)
  {
  }

  // Drawing one more thing does not change what was placed before it.
  lemma {:induction false} PlacedPrefix(s: SessionState, drawn: seq<Loot>, more: seq<Loot>, n: nat)
    requires n <= |drawn|
    ensures AllPlaced(s, drawn + more, n) == AllPlaced(s, drawn, n)
  {
    hide Placed;
    if n > 0 {
      PlacedPrefix(s, drawn, more, n - 1);
    }
  }

  lemma PlacedNext(s: SessionState, drawn: seq<Loot>, loot: Loot)
    ensures AllPlaced(s, drawn + [loot], |drawn| + 1) == Placed(AllPlaced(s, drawn, |drawn|), loot)
  {
    hide Placed;
    PlacedPrefix(s, drawn, [loot], |drawn|);
  }

  class GameSession {
    const world: RoadMap
    const generator: LootGenerator
    var dogs: map<nat, Dog>
    var loots: map<nat, Loot>
    var lootIdIncr: nat
    var looterCount: nat
    ghost var ledger: Ledger

    // The dog counter is the number of dogs.
    ghost predicate Valid()
      reads this, world
    {
      world.Indexed() && WellFormed(world.config) && looterCount == |dogs| && Apart(dogs)
    }

    function Repr(): set<object>
      reads this
    {
      {this, generator} + dogs.Values
    }

    ghost function View(): SessionState
      reads Repr()
    {
      SessionState(world.config, Views(dogs), loots, lootIdIncr, generator.timeWithoutLoot, ledger)
    }

    constructor (world: RoadMap)
      requires world.Indexed() && WellFormed(world.config)
      ensures Valid() && View() == NewSession(world.config) && this.world == world
      ensures dogs == map[] && fresh(generator)
    {
      this.world := world;
      generator := new LootGenerator();
      dogs, loots, lootIdIncr, looterCount, ledger := map[], map[], 0, 0, EMPTY_LEDGER;
    }

    // dogs_.emplace: a dog whose id is in use is not added.
    method AddDog(id: nat, dog: Dog)
      requires Valid() && dog !in dogs.Values
      modifies this
      ensures Valid() && View() == WithDog(old(View()), id, old(dog.View()))
      ensures dogs == Emplace(old(dogs), id, dog)
    {
      hide Views, Apart, Emplace;
      EmplacedViews(dogs, id, dog);
      dogs := Emplace(dogs, id, dog);
      looterCount := |dogs|;
    }

    method RemoveDogById(id: nat)
      requires Valid()
      modifies this
      ensures Valid() && View() == old(View()).(dogs := Erase(old(View()).dogs, id))
      ensures dogs == Erase(old(dogs), id)
    {
      hide Views, Apart, Erase;
      ErasedViews(dogs, id);
      if id in dogs {
        dogs := Erase(dogs, id);
      }
      looterCount := |dogs|;
    }

    method RemoveLootById(id: nat)
      requires Valid()
      modifies this`loots
      ensures Valid() && View() == old(View()).(loots := Erase(old(loots), id))
    {
      hide Views, Apart;
      if id in loots {
        loots := Erase(loots, id);
      } else {
        assert Erase(loots, id) == loots;
      }
    }

    // The id counter restarts at the number of things restored.
    method RestoreLoot(restored: map<nat, Loot>)
      requires Valid()
      modifies this`loots, this`lootIdIncr
      ensures Valid() && View() == old(View()).(loots := restored, lootIdIncr := |restored|)
    {
      loots := restored;
      lootIdIncr := |loots|;
    }

    // loots_.emplace under the next id.
    method PlaceLoot(loot: Loot)
      requires Valid()
      modifies this`loots, this`lootIdIncr, this`ledger
      ensures Valid() && View() == Placed(old(View()), loot)
    {
      hide Views, Apart;
      if lootIdIncr !in loots {
        ledger := ledger.(placed := ledger.placed + multiset{BagItem(lootIdIncr, loot.kind)});
      }
      loots := Emplace(loots, lootIdIncr, loot);
      lootIdIncr := lootIdIncr + 1;
    }

    // As many things as the generator asks for, each at a random point; the dog counter stands for the
    // dogs. The power of the generator's probability, times its random number, is some real.
    method GenerateLoot(dt: nat) returns (ghost chance: real, ghost drawn: seq<Loot>)
      requires Valid()
      modifies this`loots, this`lootIdIncr, this`ledger, generator
      ensures |drawn| == Generated(chance, |old(loots)|, |dogs|) && forall k :: 0 <= k < |drawn| ==>
          LegalLoot(world.config, drawn[k])
      ensures Valid() && View() == LootGenerated(old(View()), dt, drawn)
    {
      hide Views, Apart, Placed, Generated, LegalLoot;
      ghost var s := View();
      var luck: real := *;
      var count := generator.Generate(dt, |loots|, looterCount, luck);
      chance, drawn := luck, [];
      ghost var waited := View();
      for i := 0 to count
        invariant Valid() && |drawn| == i && View() == AllPlaced(waited, drawn, i)
        invariant forall k :: 0 <= k < i ==> LegalLoot(world.config, drawn[k])
      {
        var kind := world.GetRandomLootType();
        var c := world.GetRandomCoordOnRoads();
        var loot := Loot(kind, c.ToVec());
        DrawnIsLegal(world.config, loot, c);
        PlaceLoot(loot);
        PlacedNext(waited, drawn, loot);
        drawn := drawn + [loot];
      }
      assert waited == Waited(s, dt, drawn);
    }

    // The lost things, in the table's order, and the offices after them.
    method GetLootToItems(order: seq<nat>) returns (items: seq<Item>)
      requires Valid() && Enumerates(order, loots.Keys)
      ensures items == LootItems(loots, order) + OfficeItems(world.config.offices)
    {
      items := [];
      for k := 0 to |order|
        invariant items == LootItems(loots, order)[..k]
      {
        items := items + [Item(loots[order[k]].pos, ITEM_WIDTH / 2.0, order[k])];
      }
      var offices := world.config.offices;
      var officeId := FIRST_OFFICE_ID;
      ghost var found := items;
      for k := 0 to |offices|
        invariant items == found + OfficeItems(offices)[..k] && officeId == FIRST_OFFICE_ID + k
      {
        items := items + [Item(offices[k].ToVec(), OFFICE_WIDTH / 2.0, officeId)];
        officeId := officeId + 1;
      }
      assert OfficeItems(offices)[..|offices|] == OfficeItems(offices);
    }
  }
}
