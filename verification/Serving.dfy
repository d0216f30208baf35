/** One process of the server: the application answers a list of requests, one after the other. */
module Serving {
  import opened Wrappers
  import opened Sessions
  import opened Servers
  import opened Safety
  import opened Agreement
  import opened AfterRestart
  import opened Accounting
  import opened LootIds
  import opened TokenLookup
  import opened Custody
  import opened RoadIndex
  import opened ApplicationModel

  // What reaches the application: players that join or move, ticks, and the save at shutdown. The token
  // of a join stands for the next draw of the token generators.
  datatype Request =
    | JoinRequest(name: string, mapId: string, token: string)
    | MoveRequest(token: string, move: string)
    | TickRequest(delta: nat)
    | SaveRequest

  lemma RunBegins(cfg: Config)
    ensures EndsIn(cfg, Run([Fresh(cfg)], []), Fresh(cfg))
  {
    hide Legal, Step, Fresh;
  }

  // What holds of the server after the run: every dog is on a road; custody of the lost things is conserved,
  // and with a positive retirement time the books balance; if no tick drew a known id every id is in exactly
  // one place; if no join met an id in use the indexes agree. In the first process none ever does.
  ghost predicate Sound(cfg: Config, r: Run, st: ServerState) {
    && SafeServer(cfg, st)
    && AllConserved(st.sessions) && (cfg.retirement > 0 ==> AllBalanced(st.sessions))
    && (FreshPlacements(r, |r.actions|) ==> AllInOnePlace(st.sessions))
    && (FreshJoins(cfg, r, |r.actions|) ==> Indexed(st))
    && (NoRestart(r) ==> Agrees(st) && AllIssued(st.sessions))
  }

  lemma RunIsSound(cfg: Config, r: Run, st: ServerState)
    requires GoodConfig(cfg) && EndsIn(cfg, r, st)
    ensures Sound(cfg, r, st)
  {
    hide Legal, Step, SafeServer, Agrees, Indexed, FreshJoins, NoRestart, AllConserved, AllSettled, AllIssued,
        AllInOnePlace, FreshPlacements, MapsKeyed;
    RunSafe(cfg, r, |r.actions|);
    RunConserved(cfg, r, |r.actions|);
    if cfg.retirement > 0 {
      RunBalanced(cfg, r, |r.actions|);
    }
    if FreshPlacements(r, |r.actions|) {
      RunInOnePlace(cfg, r, |r.actions|);
    }
    if FreshJoins(cfg, r, |r.actions|) {
      RunIndexed(cfg, r, |r.actions|);
    }
    if NoRestart(r) {
      FreshAgrees(cfg);
      RunAgrees(cfg, r, 0, |r.actions|);
      RunIssued(cfg, r, |r.actions|);
    }
  }

  // ---------- Starting a process ----------

  lemma SavedIsRestorable(cfg: Config, r: Run, st: ServerState)
    requires GoodConfig(cfg) && EndsIn(cfg, r, st)
    ensures Legal(cfg, st, Restart)
  {
    hide Step, GoodConfig, Fresh, SafeSessions, SafeSave;
    RunSafe(cfg, r, |r.actions|);
    if st.disk.Some? {
      SafeIsRestorable(cfg, st.disk.value);
    }
  }

  // A new process takes over from the last state of the one before: the records in the database and the
  // state file are all it finds of it.
  method Start(cfg: Config, worlds: map<string, RoadMap>, records: seq<Record>, disk: Option<seq<SaveSession>>,
      ghost before: Run, ghost last: ServerState)
    returns (app: Application, ghost run: Run)
    requires GoodConfig(cfg)
    requires forall id :: id in cfg.maps ==> id in worlds && worlds[id].config == cfg.maps[id] && worlds[id].Indexed()
    requires EndsIn(cfg, before, last) && last.records == records && last.disk == disk
    ensures app.Valid() && app.cfg == cfg && EndsIn(cfg, run, app.View()) && Sound(cfg, run, app.View())
    ensures !(cfg.hasStateFile && disk.Some?) ==> app.View() == Fresh(cfg).(records := records, disk := disk)
    ensures fresh(app) && fresh(app.players) && fresh(app.playerTokens) && fresh(Footprint(app.sessions))
  {
    hide SessionViews, AllValid, Separate, Restored, Restorable, Opened, Fresh, EndsIn, Sound, RoadMap.Indexed,
        GoodConfig,
        Footprint;
    SavedIsRestorable(cfg, before, last);
    app := new Application(cfg, worlds, records, disk);
    NoFootprint();
    label Begun:
    app.RestoreBackUpData();
    forall o | o in Footprint(app.sessions) ensures fresh(o) {
      assert fresh@Begun(o);
    }
    RunExtends(cfg, before, last, Restart, app.View());
    run := Extended(before, Restart, app.View());
    RunIsSound(cfg, run, app.View());
  }

  lemma NoFootprint()
    ensures Footprint([]) == {}
  {
  }

  // ---------- Answering requests ----------

  // The token is known, but the dog of its player is gone: looking it up throws.
  ghost predicate Throws(st: ServerState, request: Request) {
    request.MoveRequest? && request.token in st.tokens && !Finds(st, request.token)
  }

  // A join to an unknown map, or with a token already given out, is not answered.
  ghost predicate Refused(cfg: Config, st: ServerState, request: Request) {
    request.JoinRequest? && (request.mapId !in cfg.maps || request.token == "" || request.token in st.tokens)
  }

  // One request; a move with an unknown token is an action that changes nothing.
  method Answer(app: Application, request: Request) returns (ghost done: Option<Action>, thrown: bool)
    requires app.Valid()
    modifies app`sessions, app`records, app`serverTime, app`backupTime, app`disk
    modifies app.players, app.playerTokens, Footprint(app.sessions)
    ensures app.Valid() && fresh(Footprint(app.sessions) - old(Footprint(app.sessions)))
    ensures match done
            case None => app.View() == old(app.View())
            case Some(a) =>
              Legal(app.cfg, old(app.View()), a) && app.View() == Step(app.cfg, old(app.View()), a) && !a.Restart?
    ensures thrown == Throws(old(app.View()), request)
    ensures done.None? <==> thrown || Refused(app.cfg, old(app.View()), request)
  {
    hide SessionViews, AllValid, Separate, Footprint, Joined, LegalJoin, Steering, Advance, LegalSessions, Writes,
        Saved, GoodConfig, Finds;
    done, thrown := None, false;
    match request
    case JoinRequest(name, mapId, token) =>
      if mapId in app.cfg.maps && token != "" && token !in app.playerTokens.tokens {
        var id, spawn := app.JoinGame(name, mapId, token);
        done := Some(Action.Join(name, mapId, spawn, token));
      }
    case MoveRequest(token, move) =>
      var answer := app.Steer(token, move);
      thrown := answer.Thrown?;
      if !thrown {
        done := Some(Action.Steer(token, move));
      }
    case TickRequest(delta) =>
      ghost var a := app.Tick(delta);
      done := Some(a);
    case SaveRequest =>
      var saved := app.BackUpData();
      done := Some(Action.Save(saved));
  }

  // Whatever the requests, and whatever the containers, the road index, the sort and the random numbers
  // choose on the way: the application continues the run of the server, and what holds after every run
  // holds of its state. A lookup that throws ends the process, without the save at its end; as long as no
  // join met an id in use none does.
  method Serve(app: Application, requests: seq<Request>, ghost before: Run)
    returns (ghost run: Run, answered: nat)
    requires app.Valid() && EndsIn(app.cfg, before, app.View())
    modifies app`sessions, app`records, app`serverTime, app`backupTime, app`disk
    modifies app.players, app.playerTokens, Footprint(app.sessions)
    ensures app.Valid() && EndsIn(app.cfg, run, app.View()) && Sound(app.cfg, run, app.View())
    ensures |before.actions| <= |run.actions| && run.actions[..|before.actions|] == before.actions
    ensures forall i :: |before.actions| <= i < |run.actions| ==> !run.actions[i].Restart?
    ensures answered <= |requests| && (answered < |requests| ==> Throws(app.View(), requests[answered]))
    ensures FreshJoins(app.cfg, run, |run.actions|) ==> answered == |requests|
    ensures fresh(Footprint(app.sessions) - old(Footprint(app.sessions)))
  {
    hide SessionViews, AllValid, Separate, Footprint, Legal, Step, EndsIn, Sound, GoodConfig, FreshJoins, Throws;
    run, answered := before, 0;
    var thrown := false;
    while answered < |requests| && !thrown
      invariant app.Valid() && fresh(Footprint(app.sessions) - old(Footprint(app.sessions)))
      invariant EndsIn(app.cfg, run, app.View())
      invariant |before.actions| <= |run.actions| && run.actions[..|before.actions|] == before.actions
      invariant forall i :: |before.actions| <= i < |run.actions| ==> !run.actions[i].Restart?
      invariant answered <= |requests|
      invariant thrown ==> answered < |requests| && Throws(app.View(), requests[answered])
      decreases |requests| - answered, !thrown
    {
      ghost var st, touched := app.View(), Footprint(app.sessions);
      label Before:
      ghost var done;
      done, thrown := Answer(app, requests[answered]);
      forall o | o in Footprint(app.sessions) && o !in old(Footprint(app.sessions)) ensures fresh(o) {
        assert o in touched - old(Footprint(app.sessions)) || fresh@Before(o);
      }
      if done.Some? {
        RunExtends(app.cfg, run, st, done.value, app.View());
        run := Extended(run, done.value, app.View());
      }
      if !thrown {
        answered := answered + 1;
      }
    }
    IsGood(app);
    RunIsSound(app.cfg, run, app.View());
    if thrown && FreshJoins(app.cfg, run, |run.actions|) {
      FreshNeverThrows(app.cfg, run, app.View(), requests[answered]);
    }
  }

  lemma FreshNeverThrows(cfg: Config, r: Run, st: ServerState, request: Request)
    requires GoodConfig(cfg) && EndsIn(cfg, r, st) && FreshJoins(cfg, r, |r.actions|)
    ensures !Throws(st, request)
  {
    hide GoodConfig, Legal, Step, FreshJoins, Finds;
    RunFreshFinds(cfg, r, |r.actions|);
  }

  lemma IsGood(app: Application)
    requires app.Valid()
    ensures GoodConfig(app.cfg)
  {
  }

  // ---------- The first process ----------

  // The server that is started for the first time finds no records and no state file, and begins empty.
  method StartFirst(cfg: Config, worlds: map<string, RoadMap>) returns (app: Application, ghost run: Run)
    requires GoodConfig(cfg)
    requires forall id :: id in cfg.maps ==> id in worlds && worlds[id].config == cfg.maps[id] && worlds[id].Indexed()
    ensures app.Valid() && app.cfg == cfg && app.View() == Fresh(cfg)
    ensures EndsIn(cfg, run, app.View()) && NoRestart(run)
    ensures fresh(app) && fresh(app.players) && fresh(app.playerTokens) && fresh(Footprint(app.sessions))
  {
    hide SessionViews, AllValid, Separate, EndsIn, Sound, RoadMap.Indexed;
    RunBegins(cfg);
    ghost var again: Run;
    app, again := Start(cfg, worlds, [], None, Run([Fresh(cfg)], []), Fresh(cfg));
    run := Run([Fresh(cfg)], []);
  }

  // Whatever that process is asked to do: it answers every request, the indexes agree, and every id of a
  // lost thing that any session has given out is in exactly one place.
  method ServeFirst(cfg: Config, worlds: map<string, RoadMap>, requests: seq<Request>)
    returns (app: Application, ghost run: Run, answered: nat)
    requires GoodConfig(cfg)
    requires forall id :: id in cfg.maps ==> id in worlds && worlds[id].config == cfg.maps[id] && worlds[id].Indexed()
    ensures app.Valid() && app.cfg == cfg && EndsIn(cfg, run, app.View()) && NoRestart(run)
    ensures answered == |requests| && Agrees(app.View())
    ensures forall k, id: nat :: 0 <= k < |app.View().sessions| ==>
        var s := app.View().sessions[k]; if id < s.lootIdIncr then InOnePlace(s, id) else Nowhere(s, id)
  {
    hide SessionViews, AllValid, Separate, Footprint, EndsIn, Indexed, InOnePlace, Nowhere, Conserved, Issued,
        RoadMap.Indexed, Throws;
    ghost var begun: Run;
    app, begun := StartFirst(cfg, worlds);
    run, answered := Serve(app, requests, begun);
    IssuedInOnePlace(app.View().sessions);
    if answered < |requests| {
      IndexedNeverThrows(app.View(), requests[answered]);
    }
  }

  lemma IndexedNeverThrows(st: ServerState, request: Request)
    requires Indexed(st)
    ensures !Throws(st, request)
  {
    hide Indexed, Finds;
    IndexedFinds(st);
  }

  lemma IssuedInOnePlace(sessions: seq<SessionState>)
    requires AllConserved(sessions) && AllIssued(sessions)
    ensures forall k, id: nat :: 0 <= k < |sessions| ==>
        var s := sessions[k]; if id < s.lootIdIncr then InOnePlace(s, id) else Nowhere(s, id)
  {
    hide Conserved, Issued, InOnePlace, Nowhere;
    forall k, id: nat | 0 <= k < |sessions|
      ensures var s := sessions[k]; if id < s.lootIdIncr then InOnePlace(s, id) else Nowhere(s, id)
    {
      ExactlyOnePlace(sessions[k], id);
    }
  }
}
