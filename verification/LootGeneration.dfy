/** How many lost things a session adds per tick; the generator keeps for how long it has been adding none. */
module LootGeneration {
  import opened Reals

  function Clamp01(x: real): (c: real)
    ensures 0.0 <= c <= 1.0
  {
    if x < 0.0 then 0.0 else if x > 1.0 then 1.0 else x
  }

  // std::round on a non-negative value: halves go up.
  function Round(x: real): (n: nat)
    requires x >= 0.0
    ensures n as real - 0.5 <= x < n as real + 0.5
  {
    (x + 0.5).Floor
  }

  function Shortage(lootCount: nat, looterCount: nat): nat {
    if lootCount > looterCount then 0 else looterCount - lootCount
  }

  // chance stands for (1 - pow(1 - probability, ratio)) * random; it is clamped before use.
  function Generated(chance: real, lootCount: nat, looterCount: nat): nat {
    var p := Clamp01(chance);
    var n := Shortage(lootCount, looterCount) as real;
    assert n * p >= 0.0 by { Scaled(n, p); }
    Round(n * p)
  }

  // Never more than the shortage, so the loot on the ground never comes to exceed the looters by
  // generation; nothing when there is enough, and the whole shortage at full chance.
  lemma GeneratedWithinShortage(chance: real, lootCount: nat, looterCount: nat)
    ensures var g := Generated(chance, lootCount, looterCount);
            && g <= Shortage(lootCount, looterCount)
            && (g > 0 ==> lootCount + g <= looterCount)
            && (lootCount >= looterCount || chance <= 0.0 ==> g == 0)
            && (chance >= 1.0 ==> g == Shortage(lootCount, looterCount))
  {
    Scaled(Shortage(lootCount, looterCount) as real, Clamp01(chance));
  }

  // It is the whole number nearest to the shortage times the chance clamped to [0, 1]; halves go up.
  lemma GeneratedIsNearest(chance: real, lootCount: nat, looterCount: nat, share: real)
    requires looterCount >= lootCount
    requires share == if chance <= 0.0 then 0.0 else if chance >= 1.0 then 1.0 else chance
    ensures var g := Generated(chance, lootCount, looterCount) as real;
            g - 0.5 <= (looterCount - lootCount) as real * share < g + 0.5
  {
    Scaled(Shortage(lootCount, looterCount) as real, Clamp01(chance));
  }

  class LootGenerator {
    var timeWithoutLoot: nat

    constructor ()
      ensures timeWithoutLoot == 0
    {
      timeWithoutLoot := 0;
    }

    method Generate(timeDelta: nat, lootCount: nat, looterCount: nat, chance: real) returns (generated: nat)
      modifies this
      ensures generated == Generated(chance, lootCount, looterCount)
      ensures timeWithoutLoot == if generated > 0 then 0 else old(timeWithoutLoot) + timeDelta
    {
      timeWithoutLoot := timeWithoutLoot + timeDelta;
      generated := Generated(chance, lootCount, looterCount);
      if generated > 0 {
        timeWithoutLoot := 0;
      }
    }
  }
}
