/** How much can lie on the ground of a map, over whole runs with restarts. */
module LootBound {
  import opened Sessions
  import opened LootGeneration
  import opened Custody
  import opened Servers
  import opened DiskHistory

  lemma SubsetSize<T>(a: set<T>, b: set<T>)
    requires a <= b
    ensures |a| <= |b|
  {
    if a != {} {
      var x :| x in a;
      SubsetSize(a - {x}, b - {x});
    }
  }

  lemma {:induction false} PlacedSize(s: SessionState, drawn: seq<Loot>, n: nat)
    requires n <= |drawn|
    ensures |AllPlaced(s, drawn, n).loots.Keys| <= |s.loots.Keys| + n
  {
    if n > 0 {
      PlacedSize(s, drawn, n - 1);
      var t := AllPlaced(s, drawn, n - 1);
      assert AllPlaced(s, drawn, n).loots.Keys <= t.loots.Keys + {t.lootIdIncr};
      SubsetSize(AllPlaced(s, drawn, n).loots.Keys, t.loots.Keys + {t.lootIdIncr});
    }
  }

  // After a tick there is no more on the ground than before it, or than there were dogs.
  lemma TickLootBound(s: SessionState, dt: nat, c: TickChoice)
    requires LegalDraw(s, c) && LegalRoutes(s, c.routes)
    ensures |Ticked(s, dt, c).loots| <= |s.loots| || |Ticked(s, dt, c).loots| <= |s.dogs|
  {
    GeneratedWithinShortage(c.chance, |s.loots|, |s.dogs|);
    PlacedSize(Waited(s, dt, c.drawn), c.drawn, |c.drawn|);
    TickLoots(s, dt, c);
    SubsetSize(Ticked(s, dt, c).loots.Keys, LootGenerated(s, dt, c.drawn).loots.Keys);
  }

  // In some state up to n the map's session held at least this many dogs.
  ghost predicate OnceHeld(r: Run, n: nat, mapId: string, count: nat) {
    exists j: nat, i: nat :: j <= n && HoldsAt(r, j, i, mapId, count)
  }

  ghost predicate HoldsAt(r: Run, j: nat, i: nat, mapId: string, count: nat) {
    && j < |r.states| && i < |r.states[j].sessions|
    && r.states[j].sessions[i].world.id == mapId && count <= |r.states[j].sessions[i].dogs|
  }

  lemma HeldLater(r: Run, m: nat, n: nat, mapId: string, most: nat, count: nat)
    requires m <= n && OnceHeld(r, m, mapId, most) && count <= most
    ensures OnceHeld(r, n, mapId, count)
  {
    var j: nat, i: nat :| j <= m && HoldsAt(r, j, i, mapId, most);
    assert HoldsAt(r, j, i, mapId, count);
  }

  // Actions other than a tick leave the ground of a session alone.
  lemma GroundBetweenTicks(cfg: Config, st: ServerState, a: Action, k: nat)
    requires Legal(cfg, st, a) && !a.Tick? && !a.Restart? && k < |Step(cfg, st, a).sessions|
    ensures var s := Step(cfg, st, a).sessions[k];
            if k < |st.sessions| then s.loots == st.sessions[k].loots && s.world == st.sessions[k].world
            else s.loots == map[]
  {
  }

  lemma StepLootBound(cfg: Config, st: ServerState, a: Action, k: nat)
    requires Legal(cfg, st, a) && !a.Restart? && k < |Step(cfg, st, a).sessions|
    ensures var s := Step(cfg, st, a).sessions[k];
            if k < |st.sessions| then
              && s.world == st.sessions[k].world
              && (|s.loots| <= |st.sessions[k].loots| || |s.loots| <= |st.sessions[k].dogs|)
            else |s.loots| == 0
  {
    if a.Tick? {
      TickWorlds(cfg, st, a, k);
      TickStep(cfg, st, a, k);
      TickLootBound(st.sessions[k], a.dt, a.ts[k]);
    } else {
      GroundBetweenTicks(cfg, st, a, k);
    }
  }

  // The number of things on the ground of a map never exceeds the largest number of dogs that have been
  // on the map at one time, in this process of the server or an earlier one.
  lemma {:induction false} RunLootBound(cfg: Config, r: Run, n: nat, k: nat)
    requires MapsKeyed(cfg) && IsRun(cfg, r) && r.states[0] == Fresh(cfg)
    requires n < |r.states| && k < |r.states[n].sessions|
    ensures var s := r.states[n].sessions[k]; OnceHeld(r, n, s.world.id, |s.loots|)
    decreases n
  {
    hide Legal, Step, OnceHeld, IsRun, MapsKeyed, IsBackup, OpeningLedger;
    RunStep(cfg, r, n - 1);
    var a, st := r.actions[n - 1], r.states[n - 1];
    var s := r.states[n].sessions[k];
    if a.Restart? {
      var j, i := RestoredFrom(cfg, r, n - 1, k);
      RunLootBound(cfg, r, j, i);
      HeldLater(r, j, n, s.world.id, |s.loots|, |s.loots|);
    } else {
      StepLootBound(cfg, st, a, k);
      if k >= |st.sessions| {
        HeldAt(r, n, n, k, |s.loots|);
      } else if |s.loots| <= |st.sessions[k].loots| {
        RunLootBound(cfg, r, n - 1, k);
        HeldLater(r, n - 1, n, s.world.id, |st.sessions[k].loots|, |s.loots|);
      } else {
        HeldAt(r, n, n - 1, k, |s.loots|);
      }
    }
  }

  lemma HeldAt(r: Run, n: nat, j: nat, k: nat, count: nat)
    requires j <= n && j < |r.states| && k < |r.states[j].sessions| && count <= |r.states[j].sessions[k].dogs|
    ensures OnceHeld(r, n, r.states[j].sessions[k].world.id, count)
  {
    assert HoldsAt(r, j, k, r.states[j].sessions[k].world.id, count);
  }
}
