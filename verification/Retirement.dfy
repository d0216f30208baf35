/** Retirement over whole runs: what a dog's stop time measures, and when exactly the dog is removed. */
module Retirement {
  import opened Wrappers
  import opened Dogs
  import opened Sessions
  import opened Servers
  import opened Safety

  // ---------- One action ----------

  ghost predicate In(st: ServerState, k: nat, id: nat) { k < |st.sessions| && id in st.sessions[k].dogs }

  ghost function DogIn(st: ServerState, k: nat, id: nat): DogState
    requires In(st, k, id)
  {
    st.sessions[k].dogs[id]
  }

  // A dog that was not there before has not stood still yet; any other keeps its stop time, and stays.
  lemma JoinStops(cfg: Config, st: ServerState, a: Action, k: nat, id: nat)
    requires Legal(cfg, st, a) && a.Join?
    ensures In(st, k, id) ==>
        In(Step(cfg, st, a), k, id) && DogIn(Step(cfg, st, a), k, id).stopTime == DogIn(st, k, id).stopTime
    ensures !In(st, k, id) && In(Step(cfg, st, a), k, id) ==> DogIn(Step(cfg, st, a), k, id).stopTime == 0
  {
  }

  lemma SteerStops(cfg: Config, st: ServerState, a: Action, k: nat, id: nat)
    requires Legal(cfg, st, a) && (a.Steer? || a.Save?)
    ensures In(st, k, id) <==> In(Step(cfg, st, a), k, id)
    ensures In(st, k, id) ==> DogIn(Step(cfg, st, a), k, id).stopTime == DogIn(st, k, id).stopTime
  {
  }

  lemma TickedStops(cfg: Config, s: SessionState, dt: nat, c: TickChoice, id: nat)
    requires SafeSession(cfg, s) && LegalTick(s, cfg.retirement, dt, c)
    ensures id in Ticked(s, dt, c).dogs ==> id in s.dogs
    ensures id in s.dogs ==>
              var d, r := s.dogs[id], Ticked(s, dt, c).dogs;
              var sum := if Still(d, dt) then d.stopTime + dt else 0;
              (id in r <==> sum < cfg.retirement) && (id in r ==> r[id].stopTime == sum)
  {
    TickedDog(s, cfg.retirement, dt, c, id);
    if id in s.dogs {
      AdvancedSafe(s.world.roads, id, s.dogs[id], dt, c.routes[id]);
    }
  }

  // A tick adds its delta to the stop time of a dog that stands still and clears that of any other; it
  // removes exactly the dogs whose stop time reaches the limit. A dog that means to move cannot keep
  // its stop time, because it stands on a road.
  lemma TickStops(cfg: Config, st: ServerState, a: Action, k: nat, id: nat)
    requires Legal(cfg, st, a) && a.Tick? && SafeServer(cfg, st)
    ensures In(Step(cfg, st, a), k, id) ==> In(st, k, id)
    ensures In(st, k, id) ==>
              var d, r := DogIn(st, k, id), Step(cfg, st, a);
              var sum := if Still(d, a.dt) then d.stopTime + a.dt else 0;
              && (In(r, k, id) <==> sum < cfg.retirement)
              && (In(r, k, id) ==> DogIn(r, k, id).stopTime == sum)
  {
    hide Ticked, LegalTick, LegalDraw, SafeSession, Step, Still;
    if k < |st.sessions| {
      TickStep(cfg, st, a, k);
      TickedStops(cfg, st.sessions[k], a.dt, a.ts[k], id);
    } else {
      TickCount(cfg, st, a);
    }
  }

  lemma TickCount(cfg: Config, st: ServerState, a: Action)
    requires Legal(cfg, st, a) && a.Tick?
    ensures |Step(cfg, st, a).sessions| == |st.sessions|
  {
  }

  ghost predicate Rested(s: SessionState) {
    forall id: nat :: id in s.dogs ==> s.dogs[id].stopTime == 0 && s.dogs[id].lifeTime == 0
  }

  ghost predicate AllRested(sessions: seq<SessionState>) {
    forall k :: 0 <= k < |sessions| ==> Rested(sessions[k])
  }

  lemma HomingRests(s: SessionState, m: MapConfig, id: nat, r: DogRepr, loots: map<nat, Loot>, next: nat)
    ensures Rested(s) ==> Rested(WithDog(s, id, RestoredDog(r)))
    ensures Rested(WithDog(NewSession(m), id, RestoredDog(r)).(loots := loots, lootIdIncr := next))
  {
  }

  lemma HomedRested(sessions: seq<SessionState>, m: MapConfig, data: SaveSession, r: DogRepr)
    requires AllRested(sessions)
    ensures AllRested(Homed(sessions, m, data, r))
  {
    hide FindSession, Rested, WithDog, NewSession, RestoredDog;
    match FindSession(sessions, m.id, |sessions|)
    case Some(i) => HomingRests(sessions[i], m, r.id, r, data.loots, |data.loots|);
    case None => HomingRests(NewSession(m), m, r.id, r, data.loots, |data.loots|);
  }

  lemma HomedDogsRested(sessions: seq<SessionState>, m: MapConfig, data: SaveSession, n: nat)
    requires AllRested(sessions) && n <= |data.dogs|
    ensures AllRested(HomedDogs(sessions, m, data, n))
  {
    hide AllRested, Homed;
    var f, inv := Homing(m, data), (ss: seq<SessionState>) => AllRested(ss);
    forall ss, r | inv(ss) && r in data.dogs ensures inv(f(ss, r)) {
      HomedRested(ss, m, data, r);
    }
    FoldKeeps(f, inv, sessions, data.dogs, n);
  }

  lemma {:induction false} HomedAllRested(cfg: Config, sessions: seq<SessionState>, saved: seq<SaveSession>, n: nat)
    requires Restorable(cfg, saved) && n <= |saved| && AllRested(sessions)
    ensures AllRested(HomedAll(cfg, sessions, saved, n))
  {
    hide AllRested, HomedDogs;
    if n > 0 {
      HomedAllRested(cfg, sessions, saved, n - 1);
      HomedDogsRested(HomedAll(cfg, sessions, saved, n - 1), cfg.maps[saved[n - 1].mapId], saved[n - 1],
          |saved[n - 1].dogs|);
    }
  }

  // After a restart every timer begins anew.
  lemma RestartStops(cfg: Config, st: ServerState, a: Action, k: nat, id: nat)
    requires Legal(cfg, st, a) && a.Restart? && In(Step(cfg, st, a), k, id)
    ensures DogIn(Step(cfg, st, a), k, id).stopTime == 0
  {
    if cfg.hasStateFile && st.disk.Some? {
      HomedAllRested(cfg, [], st.disk.value, |st.disk.value|);
    }
  }

  // ---------- Whole runs ----------

  // Action i interrupts the rest of the dog: it enters with it, moves in it, or the server restarts.
  ghost predicate Stirs(r: Run, i: nat, k: nat, id: nat)
    requires i < |r.states| && i < |r.actions|
  {
    || !In(r.states[i], k, id)
    || r.actions[i].Restart?
    || (r.actions[i].Tick? && !Still(DogIn(r.states[i], k, id), r.actions[i].dt))
  }

  // The game time that the actions from m up to n let pass.
  ghost function TickTime(r: Run, m: nat, n: nat): nat
    requires n <= |r.actions|
  {
    if n <= m then 0 else TickTime(r, m, n - 1) + if r.actions[n - 1].Tick? then r.actions[n - 1].dt else 0
  }

  // The dog has been resting since action m - 1 stirred it.
  ghost predicate RestsSince(r: Run, m: nat, n: nat, k: nat, id: nat)
    requires |r.states| == |r.actions| + 1 && n < |r.states|
  {
    0 < m <= n && Stirs(r, m - 1, k, id) && forall i: nat :: m <= i < n ==> !Stirs(r, i, k, id)
  }

  lemma StirredStops(cfg: Config, r: Run, n: nat, k: nat, id: nat)
    requires GoodConfig(cfg) && IsRun(cfg, r) && r.states[0] == Fresh(cfg) && n + 1 < |r.states|
    requires Stirs(r, n, k, id) && In(r.states[n + 1], k, id)
    ensures DogIn(r.states[n + 1], k, id).stopTime == 0
  {
    RunStep(cfg, r, n);
    RunSafe(cfg, r, n);
    hide Legal, Step, SafeServer, GoodConfig, IsRun, Fresh;
    var a := r.actions[n];
    if a.Join? {
      JoinStops(cfg, r.states[n], a, k, id);
    } else if a.Tick? {
      TickStops(cfg, r.states[n], a, k, id);
    } else if a.Restart? {
      RestartStops(cfg, r.states[n], a, k, id);
    } else {
      SteerStops(cfg, r.states[n], a, k, id);
    }
  }

  lemma RestedStops(cfg: Config, r: Run, n: nat, k: nat, id: nat)
    requires GoodConfig(cfg) && IsRun(cfg, r) && r.states[0] == Fresh(cfg) && n + 1 < |r.states|
    requires !Stirs(r, n, k, id) && In(r.states[n + 1], k, id)
    ensures DogIn(r.states[n + 1], k, id).stopTime == DogIn(r.states[n], k, id).stopTime + TickTime(r, n, n + 1)
  {
    RunStep(cfg, r, n);
    RunSafe(cfg, r, n);
    hide Legal, Step, SafeServer, GoodConfig, IsRun, Fresh;
    var a := r.actions[n];
    if a.Join? {
      JoinStops(cfg, r.states[n], a, k, id);
    } else if a.Tick? {
      TickStops(cfg, r.states[n], a, k, id);
    } else {
      SteerStops(cfg, r.states[n], a, k, id);
    }
  }

  // The stop time of a dog is the game time since it last moved, joined or was restored.
  lemma {:induction false} StopTimeIsRest(cfg: Config, r: Run, m: nat, n: nat, k: nat, id: nat)
    requires GoodConfig(cfg) && IsRun(cfg, r) && r.states[0] == Fresh(cfg) && n < |r.states|
    requires In(r.states[n], k, id) && RestsSince(r, m, n, k, id)
    ensures DogIn(r.states[n], k, id).stopTime == TickTime(r, m, n)
  {
    if m == n {
      StirredStops(cfg, r, n - 1, k, id);
    } else {
      assert !Stirs(r, n - 1, k, id);
      StopTimeIsRest(cfg, r, m, n - 1, k, id);
      RestedStops(cfg, r, n - 1, k, id);
    }
  }

  // Every dog present has such a beginning of its rest.
  lemma {:induction false} RestBegins(cfg: Config, r: Run, n: nat, k: nat, id: nat) returns (m: nat)
    requires IsRun(cfg, r) && r.states[0] == Fresh(cfg) && n < |r.states| && In(r.states[n], k, id)
    ensures RestsSince(r, m, n, k, id)
  {
    if Stirs(r, n - 1, k, id) {
      m := n;
    } else {
      m := RestBegins(cfg, r, n - 1, k, id);
    }
  }

  // A tick removes a dog exactly when it stands still and has by then rested for the whole limit.
  lemma RemovedExactly(cfg: Config, r: Run, m: nat, n: nat, k: nat, id: nat)
    requires GoodConfig(cfg) && cfg.retirement > 0 && IsRun(cfg, r) && r.states[0] == Fresh(cfg)
    requires n < |r.actions| && r.actions[n].Tick? && In(r.states[n], k, id) && RestsSince(r, m, n, k, id)
    ensures In(r.states[n + 1], k, id) <==> Stirs(r, n, k, id) || TickTime(r, m, n + 1) < cfg.retirement
  {
    StopTimeIsRest(cfg, r, m, n, k, id);
    RunSafe(cfg, r, n);
    RunStep(cfg, r, n);
    TickStops(cfg, r.states[n], r.actions[n], k, id);
  }

  // No dog present has rested for the limit, so the tick that removes a dog is the first to reach it.
  lemma {:induction false} PresentBelowLimit(cfg: Config, r: Run, n: nat, k: nat, id: nat)
    requires GoodConfig(cfg) && cfg.retirement > 0 && IsRun(cfg, r) && r.states[0] == Fresh(cfg)
    requires n < |r.states| && In(r.states[n], k, id)
    ensures DogIn(r.states[n], k, id).stopTime < cfg.retirement
  {
    hide Legal, Step, SafeServer, GoodConfig, IsRun, Still;
    RunStep(cfg, r, n - 1);
    RunSafe(cfg, r, n - 1);
    if Stirs(r, n - 1, k, id) {
      StirredStops(cfg, r, n - 1, k, id);
    } else {
      PresentBelowLimit(cfg, r, n - 1, k, id);
      RestedStops(cfg, r, n - 1, k, id);
      if r.actions[n - 1].Tick? {
        TickStops(cfg, r.states[n - 1], r.actions[n - 1], k, id);
      }
    }
  }

  // Nothing but a tick, or a restart, removes a dog.
  lemma OnlyTicksRemove(cfg: Config, r: Run, n: nat, k: nat, id: nat)
    requires IsRun(cfg, r) && n < |r.actions| && In(r.states[n], k, id) && !In(r.states[n + 1], k, id)
    ensures r.actions[n].Tick? || r.actions[n].Restart?
  {
    RunStep(cfg, r, n);
    if r.actions[n].Join? {
      JoinStops(cfg, r.states[n], r.actions[n], k, id);
    } else if !r.actions[n].Tick? && !r.actions[n].Restart? {
      SteerStops(cfg, r.states[n], r.actions[n], k, id);
    }
  }

  // ---------- Play time ----------

  // The dog has been in the session since action m - 1 brought it there: by a join, or back by a restart.
  ghost predicate PlaysSince(r: Run, m: nat, n: nat, k: nat, id: nat)
    requires |r.states| == |r.actions| + 1 && n < |r.states|
  {
    && 0 < m <= n && (!In(r.states[m - 1], k, id) || r.actions[m - 1].Restart?)
    && forall i: nat :: m <= i < n ==> In(r.states[i], k, id) && !r.actions[i].Restart?
  }

  lemma QuietLife(cfg: Config, st: ServerState, a: Action, k: nat, id: nat)
    requires Legal(cfg, st, a) && !a.Tick? && !a.Restart? && In(Step(cfg, st, a), k, id)
    ensures DogIn(Step(cfg, st, a), k, id).lifeTime == if In(st, k, id) then DogIn(st, k, id).lifeTime else 0
  {
  }

  lemma TickedLife(s: SessionState, retirement: nat, dt: nat, c: TickChoice, id: nat)
    requires LegalTick(s, retirement, dt, c) && id in s.dogs
    ensures id in Ticked(s, dt, c).dogs ==> Ticked(s, dt, c).dogs[id].lifeTime == s.dogs[id].lifeTime + dt
  {
    TickedDog(s, retirement, dt, c, id);
    AdvancedKeeps(s.world.roads, s.dogs[id], dt, c.routes[id]);
  }

  lemma TickLife(cfg: Config, st: ServerState, a: Action, k: nat, id: nat)
    requires Legal(cfg, st, a) && a.Tick? && In(Step(cfg, st, a), k, id)
    ensures In(st, k, id) && DogIn(Step(cfg, st, a), k, id).lifeTime == DogIn(st, k, id).lifeTime + a.dt
  {
    hide Ticked, LegalTick, LegalDraw, Step;
    TickCount(cfg, st, a);
    TickStep(cfg, st, a, k);
    TickedDog(st.sessions[k], cfg.retirement, a.dt, a.ts[k], id);
    TickedLife(st.sessions[k], cfg.retirement, a.dt, a.ts[k], id);
  }

  lemma RestartLife(cfg: Config, st: ServerState, a: Action, k: nat, id: nat)
    requires Legal(cfg, st, a) && a.Restart? && In(Step(cfg, st, a), k, id)
    ensures DogIn(Step(cfg, st, a), k, id).lifeTime == 0
  {
    if cfg.hasStateFile && st.disk.Some? {
      HomedAllRested(cfg, [], st.disk.value, |st.disk.value|);
    }
  }

  // The life time of a dog is the game time since it joined or was restored.
  lemma {:induction false} LifeTimeIsPlayTime(cfg: Config, r: Run, m: nat, n: nat, k: nat, id: nat)
    requires IsRun(cfg, r) && r.states[0] == Fresh(cfg) && n < |r.states|
    requires In(r.states[n], k, id) && PlaysSince(r, m, n, k, id)
    ensures DogIn(r.states[n], k, id).lifeTime == TickTime(r, m, n)
  {
    hide Legal, Step, IsRun, Fresh;
    RunStep(cfg, r, n - 1);
    var st, a := r.states[n - 1], r.actions[n - 1];
    if m < n {
      assert In(r.states[n - 1], k, id) && !r.actions[n - 1].Restart?;
      LifeTimeIsPlayTime(cfg, r, m, n - 1, k, id);
    }
    if a.Tick? {
      TickLife(cfg, st, a, k, id);
    } else if a.Restart? {
      RestartLife(cfg, st, a, k, id);
    } else {
      QuietLife(cfg, st, a, k, id);
    }
  }

  // Every dog present has such a beginning of its play.
  lemma {:induction false} PlayBegins(cfg: Config, r: Run, n: nat, k: nat, id: nat) returns (m: nat)
    requires IsRun(cfg, r) && r.states[0] == Fresh(cfg) && n < |r.states| && In(r.states[n], k, id)
    ensures PlaysSince(r, m, n, k, id)
  {
    if !In(r.states[n - 1], k, id) || r.actions[n - 1].Restart? {
      m := n;
    } else {
      m := PlayBegins(cfg, r, n - 1, k, id);
    }
  }

  lemma RetireeLife(cfg: Config, st: ServerState, a: Action, k: nat, x: nat)
    requires Legal(cfg, st, a) && a.Tick? && k < |a.ts| && x < |a.ts[k].retirees|
    ensures var t := a.ts[k].retirees[x]; In(st, k, t.id) && t.record.playTime == DogIn(st, k, t.id).lifeTime + a.dt
  {
    hide LegalDraw, Expires, LegalSweeps, LegalRoutes;
    assert LegalTick(st.sessions[k], cfg.retirement, a.dt, a.ts[k]);
    assert RetiresAs(st.sessions[k], cfg.retirement, a.dt, a.ts[k].retirees[x]);
  }

  // The play time on the record of a retired dog is the game time from its joining, or its restoring, to
  // the end of the tick that retires it.
  lemma RecordedPlayTime(cfg: Config, r: Run, m: nat, n: nat, k: nat, x: nat)
    requires IsRun(cfg, r) && r.states[0] == Fresh(cfg) && n < |r.actions| && r.actions[n].Tick?
    requires k < |r.actions[n].ts| && x < |r.actions[n].ts[k].retirees|
    requires PlaysSince(r, m, n, k, r.actions[n].ts[k].retirees[x].id)
    ensures r.actions[n].ts[k].retirees[x].record.playTime == TickTime(r, m, n + 1)
  {
    hide Step, Legal, IsRun, Fresh;
    StepsOn(cfg, r, n);
    RunStep(cfg, r, n);
    RetireeLife(cfg, r.states[n], r.actions[n], k, x);
    LifeTimeIsPlayTime(cfg, r, m, n, k, r.actions[n].ts[k].retirees[x].id);
  }
}
