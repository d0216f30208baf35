/** Ids of lost things over whole runs with restarts: when each is in exactly one place, and when not. */
module LootIds {
  import opened Sums
  import Roads
  import opened Dogs
  import opened Sessions
  import opened Custody
  import opened Servers
  import opened Autosave
  import opened DiskHistory
  import opened Accounting

  // Every id placed in the session, or restored into it, is in exactly one place; no other is anywhere.
  ghost predicate EachInOnePlace(s: SessionState) {
    forall id: nat :: if WasPlaced(s, id) then InOnePlace(s, id) else Nowhere(s, id)
  }

  lemma PlacesCount(s: SessionState, x: BagItem)
    requires Conserved(s)
    ensures Places(s, x) == s.ledger.placed[x]
  {
  }

  // Under custody that is the same as saying that no id was placed twice.
  lemma OnceIsOnePlace(s: SessionState)
    requires Conserved(s)
    ensures Once(s) <==> EachInOnePlace(s)
  {
    if Once(s) {
      forall id: nat ensures if WasPlaced(s, id) then InOnePlace(s, id) else Nowhere(s, id) {
        OnePlaceEach(s, id);
      }
    }
    if EachInOnePlace(s) {
      forall x, y | x in s.ledger.placed && y in s.ledger.placed && x.id == y.id
        ensures s.ledger.placed[x] == 1 && x == y
      {
        PlacedOnlyOnce(s, x, y);
      }
    }
  }

  lemma PlacedOnlyOnce(s: SessionState, x: BagItem, y: BagItem)
    requires Conserved(s) && EachInOnePlace(s) && x in s.ledger.placed && y in s.ledger.placed && x.id == y.id
    ensures s.ledger.placed[x] == 1 && x == y
  {
    hide Conserved, Places;
    assert BagItem(x.id, x.kind) in s.ledger.placed;
    assert WasPlaced(s, x.id) && InOnePlace(s, x.id);
    PlacesCount(s, x);
    PlacesCount(s, y);
    assert x == BagItem(x.id, x.kind) && y == BagItem(x.id, y.kind);
  }

  // ---------- One tick ----------

  // None of the ids that this draw will be given has been placed in the session or restored into it.
  ghost predicate FreshDraw(s: SessionState, drawn: seq<Loot>) {
    forall id: nat :: s.lootIdIncr <= id < s.lootIdIncr + |drawn| ==> !WasPlaced(s, id)
  }

  // The first n things drawn, under their ids.
  ghost function Numbered(first: nat, drawn: seq<Loot>, n: nat): multiset<BagItem>
    requires n <= |drawn|
  {
    if n == 0 then multiset{} else Numbered(first, drawn, n - 1) + multiset{BagItem(first + n - 1, drawn[n - 1].kind)}
  }

  lemma {:induction false} NumberedIds(first: nat, drawn: seq<Loot>, n: nat, x: BagItem)
    requires n <= |drawn|
    ensures x in Numbered(first, drawn, n) ==> first <= x.id < first + n
    ensures first <= x.id < first + n && x.kind == drawn[x.id - first].kind ==> x in Numbered(first, drawn, n)
  {
    if n > 0 {
      NumberedIds(first, drawn, n - 1, x);
    }
  }

  // All that was drawn got onto the ground under its id.
  ghost predicate PlacesAll(s: SessionState, drawn: seq<Loot>, t: SessionState) {
    t.ledger.placed == s.ledger.placed + Numbered(s.lootIdIncr, drawn, |drawn|)
  }

  lemma GroundWasPlaced(s: SessionState, id: nat)
    requires Conserved(s) && id in s.loots
    ensures WasPlaced(s, id)
  {
    GroundDrop(s.loots, id);
    assert BagItem(id, s.loots[id].kind) in s.ledger.placed;
  }

  lemma PlaceFresh(s: SessionState, l: Loot)
    requires s.lootIdIncr !in s.loots && Once(s) && !WasPlaced(s, s.lootIdIncr)
    ensures Once(Placed(s, l))
    ensures Placed(s, l).ledger.placed == s.ledger.placed + multiset{BagItem(s.lootIdIncr, l.kind)}
  {
    forall x | x in s.ledger.placed ensures x.id != s.lootIdIncr {
      assert BagItem(x.id, x.kind) in s.ledger.placed;
    }
  }

  // Placing n things makes n ids used: the next one is as fresh as it was.
  lemma StillFresh(s: SessionState, drawn: seq<Loot>, n: nat, t: SessionState, id: nat)
    requires n <= |drawn| && t.ledger.placed == s.ledger.placed + Numbered(s.lootIdIncr, drawn, n)
    requires id >= s.lootIdIncr + n && !WasPlaced(s, id)
    ensures !WasPlaced(t, id)
  {
    forall kind ensures BagItem(id, kind) !in t.ledger.placed {
      NumberedIds(s.lootIdIncr, drawn, n, BagItem(id, kind));
      assert BagItem(id, kind) !in s.ledger.placed;
    }
  }

  ghost predicate PlacedFresh(s: SessionState, drawn: seq<Loot>, n: nat, t: SessionState)
    requires n <= |drawn|
  {
    && Conserved(t) && Once(t) && t.lootIdIncr == s.lootIdIncr + n
    && t.ledger.placed == s.ledger.placed + Numbered(s.lootIdIncr, drawn, n)
  }

  lemma {:induction false} FreshPlacesAll(s: SessionState, drawn: seq<Loot>, n: nat)
    requires Conserved(s) && Once(s) && FreshDraw(s, drawn) && n <= |drawn|
    ensures PlacedFresh(s, drawn, n, AllPlaced(s, drawn, n))
  {
    hide Conserved, Once, WasPlaced, Placed;
    if n > 0 {
      FreshPlacesAll(s, drawn, n - 1);
      PlacesNext(s, drawn, n, AllPlaced(s, drawn, n - 1));
    }
  }

  lemma PlacesNext(s: SessionState, drawn: seq<Loot>, n: nat, t: SessionState)
    requires FreshDraw(s, drawn) && 0 < n <= |drawn| && PlacedFresh(s, drawn, n - 1, t)
    ensures PlacedFresh(s, drawn, n, Placed(t, drawn[n - 1]))
  {
    hide Conserved, Once, WasPlaced;
    StillFresh(s, drawn, n - 1, t, t.lootIdIncr);
    if t.lootIdIncr in t.loots {
      GroundWasPlaced(t, t.lootIdIncr);
    }
    PlaceFresh(t, drawn[n - 1]);
    PlaceConserves(t, drawn[n - 1]);
  }

  lemma AllPlacedFresh(s: SessionState, drawn: seq<Loot>, t: SessionState)
    requires PlacesAll(s, drawn, t) && Once(t)
    ensures FreshDraw(s, drawn)
  {
    forall id: nat | s.lootIdIncr <= id < s.lootIdIncr + |drawn| ensures !WasPlaced(s, id) {
      var x := BagItem(id, drawn[id - s.lootIdIncr].kind);
      NumberedIds(s.lootIdIncr, drawn, |drawn|, x);
      assert t.ledger.placed[x] > s.ledger.placed[x];
      forall kind ensures BagItem(id, kind) !in s.ledger.placed {
        assert BagItem(id, kind) in s.ledger.placed ==> BagItem(id, kind) in t.ledger.placed;
      }
    }
  }

  lemma TickPlaced(s: SessionState, dt: nat, c: TickChoice)
    requires LegalRoutes(s, c.routes)
    ensures Ticked(s, dt, c).ledger.placed == AllPlaced(Waited(s, dt, c.drawn), c.drawn, |c.drawn|).ledger.placed
  {
    hide AllPlaced, AfterEvents, AllRemoved, LegalRoutes;
    RoutesInRange(s, c.routes);
    EventsPlaceNothing(MovedIn(s, dt, c), c.events, |c.events|);
    RemovalsPlaceNothing(Gathered(s, dt, c), c.retirees, |c.retirees|);
  }

  // A tick leaves every id in one place and puts all it drew on the ground if and only if none of the ids
  // it gives out was placed before.
  lemma TickOnceIff(s: SessionState, retirement: nat, dt: nat, c: TickChoice)
    requires LegalTick(s, retirement, dt, c) && Conserved(s) && EachInOnePlace(s)
    ensures FreshDraw(s, c.drawn) <==> EachInOnePlace(Ticked(s, dt, c)) && PlacesAll(s, c.drawn, Ticked(s, dt, c))
  {
    hide LegalTick, Conserved, EachInOnePlace, Ticked, AllPlaced;
    assert LegalRoutes(s, c.routes) by { RoutesOf(s, retirement, dt, c); }
    var t, w := Ticked(s, dt, c), Waited(s, dt, c.drawn);
    TickConserves(s, retirement, dt, c);
    OnceIsOnePlace(s);
    OnceIsOnePlace(t);
    TickPlaced(s, dt, c);
    if FreshDraw(s, c.drawn) {
      SameWhenWaiting(s, dt, c.drawn);
      FreshPlacesAll(w, c.drawn, |c.drawn|);
    } else if Once(t) && PlacesAll(s, c.drawn, t) {
      AllPlacedFresh(s, c.drawn, t);
    }
  }

  lemma RoutesOf(s: SessionState, retirement: nat, dt: nat, c: TickChoice)
    requires LegalTick(s, retirement, dt, c)
    ensures LegalRoutes(s, c.routes)
  {
  }

  lemma SameWhenWaiting(s: SessionState, dt: nat, drawn: seq<Loot>)
    requires Conserved(s) && Once(s) && FreshDraw(s, drawn)
    ensures var w := Waited(s, dt, drawn); Conserved(w) && Once(w) && FreshDraw(w, drawn)
  {
    var w := Waited(s, dt, drawn);
    forall id: nat | w.lootIdIncr <= id < w.lootIdIncr + |drawn| ensures !WasPlaced(w, id) {
      assert !WasPlaced(s, id);
    }
  }

  // ---------- After a restart ----------

  ghost predicate InBag(s: SessionState, id: nat) {
    exists d: nat, k :: d in s.dogs && 0 <= k < |s.dogs[d].bag| && s.dogs[d].bag[k].id == id
  }

  lemma OnGround(loots: map<nat, Loot>, id: nat)
    ensures (exists kind :: BagItem(id, kind) in Union(Ground(loots))) <==> id in loots
  {
    if kind :| BagItem(id, kind) in Union(Ground(loots)) {
      UnionHas(Ground(loots), BagItem(id, kind));
    }
    if id in loots {
      GroundDrop(loots, id);
      assert BagItem(id, loots[id].kind) in Union(Ground(loots));
    }
  }

  lemma InSomeBag(s: SessionState, id: nat)
    ensures (exists kind :: BagItem(id, kind) in Union(Bags(s.dogs))) <==> InBag(s, id)
  {
    if kind :| BagItem(id, kind) in Union(Bags(s.dogs)) {
      UnionHas(Bags(s.dogs), BagItem(id, kind));
      var d: nat :| d in s.dogs && BagItem(id, kind) in multiset(s.dogs[d].bag);
      var k :| 0 <= k < |s.dogs[d].bag| && s.dogs[d].bag[k] == BagItem(id, kind);
    }
    if InBag(s, id) {
      var d: nat, k :| d in s.dogs && 0 <= k < |s.dogs[d].bag| && s.dogs[d].bag[k].id == id;
      DogDrop(s.dogs, d);
      assert s.dogs[d].bag[k] in multiset(s.dogs[d].bag);
      assert BagItem(id, s.dogs[d].bag[k].kind) in Union(Bags(s.dogs));
    }
  }

  lemma KnownId(s: SessionState, t: SessionState, id: nat)
    requires t.ledger.placed == Union(Ground(s.loots)) + Union(Bags(s.dogs))
    ensures WasPlaced(t, id) <==> id in s.loots || InBag(s, id)
  {
    hide InBag, Ground, Bags, Union;
    OnGround(s.loots, id);
    InSomeBag(s, id);
  }

  // The ids a restored session knows are those on the ground and in the bags of the saved one; the first
  // one it gives out is the number of things on the ground, so it is a new one if and only if neither the
  // ground nor a bag holds that number.
  lemma FirstDrawAfterRestart(s: SessionState, t: SessionState, l: Loot)
    requires BackFrom(s, t)
    ensures forall id: nat :: WasPlaced(t, id) <==> id in s.loots || InBag(s, id)
    ensures FreshDraw(t, [l]) <==> |s.loots| !in s.loots && !InBag(s, |s.loots|)
  {
    hide InBag, WasPlaced, OpeningLedger, Ground, Bags, Union;
    OpensWithWhatWasSaved(s, t);
    forall id: nat ensures WasPlaced(t, id) <==> id in s.loots || InBag(s, id) {
      KnownId(s, t, id);
    }
  }

  // ---------- Whole runs ----------

  ghost predicate AllInOnePlace(sessions: seq<SessionState>) {
    forall k :: 0 <= k < |sessions| ==> EachInOnePlace(sessions[k])
  }

  // No tick before state n draws an id that was placed in its session or restored into it.
  ghost predicate FreshPlacements(r: Run, n: nat) {
    forall i: nat, k: nat :: i < n && TicksIn(r, i, k) ==> FreshDraw(r.states[i].sessions[k], r.actions[i].ts[k].drawn)
  }

  ghost predicate TicksIn(r: Run, i: nat, k: nat) {
    i < |r.actions| && i < |r.states| && r.actions[i].Tick? && k < |r.actions[i].ts| && k < |r.states[i].sessions|
  }

  // Every tick before state n puts all it draws on the ground.
  ghost predicate AllPlacements(r: Run, n: nat) {
    forall i: nat, k: nat :: i < n && TicksIn(r, i, k) && i + 1 < |r.states| && k < |r.states[i + 1].sessions| ==>
      PlacesAll(r.states[i].sessions[k], r.actions[i].ts[k].drawn, r.states[i + 1].sessions[k])
  }

  lemma EmptyInOnePlace(s: SessionState)
    requires Conserved(s) && s.ledger.placed == multiset{}
    ensures EachInOnePlace(s)
  {
    OnceIsOnePlace(s);
  }

  // Joins, steering and saves place nothing.
  lemma QuietlyPlaced(cfg: Config, st: ServerState, a: Action, k: nat)
    requires Legal(cfg, st, a) && !a.Tick? && !a.Restart? && k < |Step(cfg, st, a).sessions|
    ensures Step(cfg, st, a).sessions[k].ledger.placed ==
            if k < |st.sessions| then st.sessions[k].ledger.placed else multiset{}
  {
  }

  lemma SamePlaced(s: SessionState, t: SessionState)
    requires Conserved(s) && Conserved(t) && t.ledger.placed <= s.ledger.placed && EachInOnePlace(s)
    ensures EachInOnePlace(t)
  {
    hide Conserved, EachInOnePlace;
    OnceIsOnePlace(s);
    OnceIsOnePlace(t);
  }

  // What comes back is a part of what was placed.
  lemma BackPlaced(s: SessionState, t: SessionState)
    requires Conserved(s) && BackFrom(s, t)
    ensures Conserved(t) && t.ledger.placed <= s.ledger.placed
  {
    OpensWithWhatWasSaved(s, t);
  }

  // Over every run, restarts included: as long as no tick draws an id that is known to its session, every
  // id is in exactly one place.
  lemma {:induction false} RunInOnePlace(cfg: Config, r: Run, n: nat)
    requires MapsKeyed(cfg) && IsRun(cfg, r) && r.states[0] == Fresh(cfg) && n < |r.states| && FreshPlacements(r, n)
    ensures AllInOnePlace(r.states[n].sessions)
    decreases n
  {
    hide FreshPlacements, EachInOnePlace;
    forall k: nat | k < |r.states[n].sessions| ensures EachInOnePlace(r.states[n].sessions[k]) {
      SessionInOnePlace(cfg, r, n, k);
    }
  }

  lemma {:induction false} SessionInOnePlace(cfg: Config, r: Run, n: nat, k: nat)
    requires MapsKeyed(cfg) && IsRun(cfg, r) && r.states[0] == Fresh(cfg) && n < |r.states| && FreshPlacements(r, n)
    requires k < |r.states[n].sessions|
    ensures EachInOnePlace(r.states[n].sessions[k])
    decreases n, 0
  {
    hide Legal, Step, IsRun, MapsKeyed, IsBackup, OpeningLedger, EachInOnePlace, Conserved, FreshPlacements, FreshDraw;
    RunStep(cfg, r, n - 1);
    RunConserved(cfg, r, n);
    var st, a, t := r.states[n - 1], r.actions[n - 1], r.states[n].sessions[k];
    if a.Restart? {
      var j, i := RestoredFrom(cfg, r, n - 1, k);
      FewerPlacements(r, j, n);
      SessionInOnePlace(cfg, r, j, i);
      RunConserved(cfg, r, j);
      BackPlaced(r.states[j].sessions[i], t);
      SamePlaced(r.states[j].sessions[i], t);
    } else if k >= |st.sessions| && !a.Tick? {
      QuietlyPlaced(cfg, st, a, k);
      EmptyInOnePlace(t);
    } else {
      if a.Tick? {
        TickWorlds(cfg, st, a, k);
      }
      FewerPlacements(r, n - 1, n);
      SessionInOnePlace(cfg, r, n - 1, k);
      RunConserved(cfg, r, n - 1);
      if a.Tick? {
        TickStep(cfg, st, a, k);
        PlacedFreshly(r, n, k);
        TickOnceIff(st.sessions[k], cfg.retirement, a.dt, a.ts[k]);
      } else {
        QuietlyPlaced(cfg, st, a, k);
        SamePlaced(st.sessions[k], t);
      }
    }
  }

  lemma FewerPlacements(r: Run, m: nat, n: nat)
    requires m <= n && FreshPlacements(r, n)
    ensures FreshPlacements(r, m)
  {
  }

  lemma PlacedFreshly(r: Run, n: nat, k: nat)
    requires n > 0 && FreshPlacements(r, n) && TicksIn(r, n - 1, k)
    ensures FreshDraw(r.states[n - 1].sessions[k], r.actions[n - 1].ts[k].drawn)
  {
  }

  // The condition is exact: it holds of a run if and only if in all its states every id is in exactly one
  // place and every tick gets all it draws onto the ground.
  lemma RunInOnePlaceIff(cfg: Config, r: Run, n: nat)
    requires MapsKeyed(cfg) && IsRun(cfg, r) && r.states[0] == Fresh(cfg) && n < |r.states|
    ensures FreshPlacements(r, n) <==>
            AllPlacements(r, n) && forall m: nat :: m <= n ==> AllInOnePlace(r.states[m].sessions)
  {
    hide IsRun, MapsKeyed, EachInOnePlace, FreshDraw, AllInOnePlace, PlacesAll;
    if FreshPlacements(r, n) {
      forall m: nat | m <= n ensures AllInOnePlace(r.states[m].sessions) {
        FewerPlacements(r, m, n);
        RunInOnePlace(cfg, r, m);
      }
    }
    if forall m: nat :: m <= n ==> AllInOnePlace(r.states[m].sessions) {
      forall i: nat, k: nat | i < n && TicksIn(r, i, k)
        ensures i + 1 < |r.states| && k < |r.states[i + 1].sessions|
        ensures FreshDraw(r.states[i].sessions[k], r.actions[i].ts[k].drawn) <==>
                PlacesAll(r.states[i].sessions[k], r.actions[i].ts[k].drawn, r.states[i + 1].sessions[k])
      {
        TickInRun(cfg, r, i, k);
      }
    }
  }

  lemma TickInRun(cfg: Config, r: Run, i: nat, k: nat)
    requires IsRun(cfg, r) && r.states[0] == Fresh(cfg) && i + 1 < |r.states| && TicksIn(r, i, k)
    requires AllInOnePlace(r.states[i].sessions) && AllInOnePlace(r.states[i + 1].sessions)
    ensures k < |r.states[i + 1].sessions|
    ensures FreshDraw(r.states[i].sessions[k], r.actions[i].ts[k].drawn) <==>
            PlacesAll(r.states[i].sessions[k], r.actions[i].ts[k].drawn, r.states[i + 1].sessions[k])
  {
    hide Legal, Step, IsRun, EachInOnePlace, Conserved, FreshDraw, PlacesAll;
    RunStep(cfg, r, i);
    RunConserved(cfg, r, i);
    TickStep(cfg, r.states[i], r.actions[i], k);
    TickOnceIff(r.states[i].sessions[k], cfg.retirement, r.actions[i].dt, r.actions[i].ts[k]);
  }

  // ---------- One process, by what it began with ----------

  // From state b to state n every id of session k is in one place, and every draw gets onto its ground.
  ghost predicate GoesWell(r: Run, b: nat, n: nat, k: nat) {
    && (forall m: nat :: b <= m <= n && m < |r.states| && k < |r.states[m].sessions| ==>
          EachInOnePlace(r.states[m].sessions[k]))
    && (forall i: nat :: b <= i < n && TicksIn(r, i, k) && i + 1 < |r.states| && k < |r.states[i + 1].sessions| ==>
          PlacesAll(r.states[i].sessions[k], r.actions[i].ts[k].drawn, r.states[i + 1].sessions[k]))
  }

  // Between its states t and u a session has issued the ids from one counter to the other, and placed
  // nothing else.
  ghost predicate Issues(t: SessionState, u: SessionState) {
    && t.lootIdIncr <= u.lootIdIncr
    && (forall id: nat :: WasPlaced(t, id) ==> WasPlaced(u, id))
    && (forall id: nat :: WasPlaced(u, id) ==> WasPlaced(t, id) || t.lootIdIncr <= id < u.lootIdIncr)
  }

  lemma PlaceIssues(s: SessionState, l: Loot)
    ensures Issues(s, Placed(s, l))
  {
    var t := Placed(s, l);
    forall id: nat | WasPlaced(s, id) ensures WasPlaced(t, id) {
      var kind :| BagItem(id, kind) in s.ledger.placed;
      assert BagItem(id, kind) in t.ledger.placed;
    }
  }

  lemma {:induction false} DrawIssues(s: SessionState, drawn: seq<Loot>, n: nat)
    requires n <= |drawn|
    ensures Issues(s, AllPlaced(s, drawn, n))
  {
    hide WasPlaced, Placed;
    if n > 0 {
      DrawIssues(s, drawn, n - 1);
      PlaceIssues(AllPlaced(s, drawn, n - 1), drawn[n - 1]);
    }
  }

  lemma SamePlacedIssues(s: SessionState, t: SessionState, u: SessionState)
    requires Issues(s, t) && u.ledger.placed == t.ledger.placed && u.lootIdIncr == t.lootIdIncr
    ensures Issues(s, u)
  {
    assert forall id: nat :: WasPlaced(u, id) <==> WasPlaced(t, id);
  }

  lemma SelfIssues(s: SessionState, t: SessionState)
    requires t.ledger.placed == s.ledger.placed && t.lootIdIncr == s.lootIdIncr
    ensures Issues(s, t)
  {
    assert forall id: nat :: WasPlaced(t, id) <==> WasPlaced(s, id);
  }

  lemma TickIssuesIds(s: SessionState, dt: nat, c: TickChoice)
    requires LegalRoutes(s, c.routes)
    ensures Issues(s, Ticked(s, dt, c)) && Ticked(s, dt, c).lootIdIncr == s.lootIdIncr + |c.drawn|
  {
    hide WasPlaced, Ticked, AllPlaced, LegalRoutes, Issues;
    var w := Waited(s, dt, c.drawn);
    RoutesInRange(s, c.routes);
    TickPlaced(s, dt, c);
    TickFrame(s, dt, c);
    PlacedFrame(w, c.drawn, |c.drawn|);
    DrawIssues(w, c.drawn, |c.drawn|);
    SelfIssues(s, w);
    IssuesOn(s, w, AllPlaced(w, c.drawn, |c.drawn|));
    SamePlacedIssues(s, AllPlaced(w, c.drawn, |c.drawn|), Ticked(s, dt, c));
  }

  lemma IssuesOn(s: SessionState, t: SessionState, u: SessionState)
    requires Issues(s, t) && Issues(t, u)
    ensures Issues(s, u)
  {
    hide WasPlaced;
  }

  lemma QuietlyIssues(cfg: Config, st: ServerState, a: Action, k: nat)
    requires Legal(cfg, st, a) && !a.Tick? && !a.Restart? && k < |st.sessions|
    ensures k < |Step(cfg, st, a).sessions|
    ensures var t := Step(cfg, st, a).sessions[k];
            t.ledger.placed == st.sessions[k].ledger.placed && t.lootIdIncr == st.sessions[k].lootIdIncr
  {
  }

  lemma StepIssues(cfg: Config, st: ServerState, a: Action, k: nat)
    requires Legal(cfg, st, a) && !a.Restart? && k < |st.sessions|
    ensures k < |Step(cfg, st, a).sessions| && Issues(st.sessions[k], Step(cfg, st, a).sessions[k])
  {
    hide Legal, Step, Issues, Ticked, LegalTick, LegalDraw;
    if a.Tick? {
      TickStep(cfg, st, a, k);
      TickIssuesIds(st.sessions[k], a.dt, a.ts[k]);
    } else {
      QuietlyIssues(cfg, st, a, k);
      SelfIssues(st.sessions[k], Step(cfg, st, a).sessions[k]);
    }
  }

  lemma {:induction false} ProcessIssues(cfg: Config, r: Run, b: nat, n: nat, k: nat)
    requires IsRun(cfg, r) && b <= n < |r.states| && OneProcess(r, b, n) && k < |r.states[b].sessions|
    ensures k < |r.states[n].sessions| && Issues(r.states[b].sessions[k], r.states[n].sessions[k])
  {
    hide Legal, Step, IsRun, Issues;
    if b == n {
      SelfIssues(r.states[b].sessions[k], r.states[b].sessions[k]);
    } else {
      ProcessIssues(cfg, r, b, n - 1, k);
      RunStep(cfg, r, n - 1);
      StepIssues(cfg, r.states[n - 1], r.actions[n - 1], k);
      IssuesOn(r.states[b].sessions[k], r.states[n - 1].sessions[k], r.states[n].sessions[k]);
    }
  }

  // None of the ids issued between two states of a session was known in the first.
  ghost predicate NewSince(t: SessionState, u: SessionState) {
    forall id: nat :: t.lootIdIncr <= id < u.lootIdIncr ==> !WasPlaced(t, id)
  }

  // The ids of one more draw.
  lemma DrawNew(t: SessionState, s: SessionState, u: SessionState, drawn: seq<Loot>)
    requires Issues(t, s) && Issues(s, u) && u.lootIdIncr == s.lootIdIncr + |drawn|
    ensures NewSince(t, u) <==> NewSince(t, s) && FreshDraw(s, drawn)
  {
    hide WasPlaced;
  }

  lemma TickGoesOn(cfg: Config, r: Run, b: nat, n: nat, k: nat)
    requires IsRun(cfg, r) && r.states[0] == Fresh(cfg) && b < n < |r.states| && OneProcess(r, b, n)
    requires k < |r.states[b].sessions| && k < |r.states[n - 1].sessions| && k < |r.states[n].sessions|
    requires n - 1 < |r.actions| && r.actions[n - 1].Tick?
    requires var t := r.states[b].sessions[k]; GoesWell(r, b, n - 1, k) <==> NewSince(t, r.states[n - 1].sessions[k])
    ensures GoesWell(r, b, n, k) <==> NewSince(r.states[b].sessions[k], r.states[n].sessions[k])
  {
    hide Legal, Step, IsRun, EachInOnePlace, Conserved, FreshDraw, PlacesAll, Issues, NewSince, LegalTick, LegalDraw,
        Ticked, OneProcess;
    RunStep(cfg, r, n - 1);
    var a, s, u := r.actions[n - 1], r.states[n - 1].sessions[k], r.states[n].sessions[k];
    EarlierProcess(r, b, n);
    ProcessIssues(cfg, r, b, n - 1, k);
    TickStep(cfg, r.states[n - 1], a, k);
    TickIssuesIds(s, a.dt, a.ts[k]);
    DrawNew(r.states[b].sessions[k], s, u, a.ts[k].drawn);
    RunConserved(cfg, r, n - 1);
    WellOneMore(r, b, n, k);
    if EachInOnePlace(s) {
      TickOnceIff(s, cfg.retirement, a.dt, a.ts[k]);
    }
  }

  lemma EarlierProcess(r: Run, b: nat, n: nat)
    requires 0 < n && OneProcess(r, b, n)
    ensures OneProcess(r, b, n - 1)
  {
  }

  lemma WellOneMore(r: Run, b: nat, n: nat, k: nat)
    requires b < n < |r.states| && k < |r.states[n - 1].sessions| && k < |r.states[n].sessions|
    ensures GoesWell(r, b, n, k) <==>
              && GoesWell(r, b, n - 1, k) && EachInOnePlace(r.states[n].sessions[k])
              && (TicksIn(r, n - 1, k) ==>
                    PlacesAll(r.states[n - 1].sessions[k], r.actions[n - 1].ts[k].drawn, r.states[n].sessions[k]))
    ensures GoesWell(r, b, n - 1, k) ==> EachInOnePlace(r.states[n - 1].sessions[k])
  {
    hide EachInOnePlace, PlacesAll;
  }

  lemma QuietGoesOn(cfg: Config, r: Run, b: nat, n: nat, k: nat)
    requires IsRun(cfg, r) && r.states[0] == Fresh(cfg) && b < n < |r.states| && OneProcess(r, b, n)
    requires k < |r.states[b].sessions| && k < |r.states[n - 1].sessions| && k < |r.states[n].sessions|
    requires n - 1 < |r.actions| && !r.actions[n - 1].Tick? && !r.actions[n - 1].Restart?
    requires var t := r.states[b].sessions[k]; GoesWell(r, b, n - 1, k) <==> NewSince(t, r.states[n - 1].sessions[k])
    ensures GoesWell(r, b, n, k) <==> NewSince(r.states[b].sessions[k], r.states[n].sessions[k])
  {
    hide Legal, Step, IsRun, EachInOnePlace, Conserved, PlacesAll;
    RunStep(cfg, r, n - 1);
    var s, u := r.states[n - 1].sessions[k], r.states[n].sessions[k];
    QuietlyIssues(cfg, r.states[n - 1], r.actions[n - 1], k);
    RunConserved(cfg, r, n - 1);
    RunConserved(cfg, r, n);
    WellOneMore(r, b, n, k);
    if EachInOnePlace(s) {
      SamePlaced(s, u);
    }
  }

  // For one session over one process, or any part of it: all goes well if and only if no id issued on the
  // way was known at the beginning.
  lemma {:induction false} ProcessInOnePlaceIff(cfg: Config, r: Run, b: nat, n: nat, k: nat)
    requires IsRun(cfg, r) && r.states[0] == Fresh(cfg) && b <= n < |r.states| && OneProcess(r, b, n)
    requires k < |r.states[b].sessions| && EachInOnePlace(r.states[b].sessions[k])
    ensures k < |r.states[n].sessions|
    ensures GoesWell(r, b, n, k) <==> NewSince(r.states[b].sessions[k], r.states[n].sessions[k])
  {
    hide Legal, Step, IsRun, EachInOnePlace, PlacesAll, NewSince, GoesWell, OneProcess;
    if b == n {
      WellAtOnce(r, b, k);
    } else {
      EarlierProcess(r, b, n);
      ProcessInOnePlaceIff(cfg, r, b, n - 1, k);
      ProcessIssues(cfg, r, b, n, k);
      RunStep(cfg, r, n - 1);
      NoRestartIn(r, b, n);
      if r.actions[n - 1].Tick? {
        TickGoesOn(cfg, r, b, n, k);
      } else {
        QuietGoesOn(cfg, r, b, n, k);
      }
    }
  }

  lemma WellAtOnce(r: Run, b: nat, k: nat)
    requires b < |r.states| && k < |r.states[b].sessions| && EachInOnePlace(r.states[b].sessions[k])
    ensures GoesWell(r, b, b, k) && NewSince(r.states[b].sessions[k], r.states[b].sessions[k])
  {
    hide EachInOnePlace;
  }

  lemma NoRestartIn(r: Run, b: nat, n: nat)
    requires b < n && OneProcess(r, b, n) && n - 1 < |r.actions|
    ensures !r.actions[n - 1].Restart?
  {
  }

  // A session that a restart brought back from s: in this process every id stays in one place, and every draw
  // gets onto the ground, if and only if no id that it has given out since lay on the ground or in a bag of s.
  lemma RestartedInOnePlaceIff(cfg: Config, r: Run, b: nat, n: nat, k: nat, s: SessionState)
    requires IsRun(cfg, r) && r.states[0] == Fresh(cfg) && b <= n < |r.states| && OneProcess(r, b, n)
    requires k < |r.states[b].sessions| && BackFrom(s, r.states[b].sessions[k])
    requires Conserved(s) && EachInOnePlace(s)
    ensures k < |r.states[n].sessions|
    ensures GoesWell(r, b, n, k) <==>
            forall id: nat :: |s.loots| <= id < r.states[n].sessions[k].lootIdIncr ==> id !in s.loots && !InBag(s, id)
  {
    hide IsRun, EachInOnePlace, Conserved, BackFrom, InBag, WasPlaced, GoesWell, OneProcess;
    var t := r.states[b].sessions[k];
    BackPlaced(s, t);
    SamePlaced(s, t);
    FirstDrawAfterRestart(s, t, Loot(0, Roads.Vec(0.0, 0.0)));
    BackCounter(s, t);
    ProcessInOnePlaceIff(cfg, r, b, n, k);
  }

  lemma BackCounter(s: SessionState, t: SessionState)
    requires BackFrom(s, t)
    ensures t.lootIdIncr == |s.loots|
  {
  }
}
