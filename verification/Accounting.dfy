/** The books of every session over whole runs: custody, value and records. */
module Accounting {
  import opened Wrappers
  import opened Sums
  import Gather
  import opened Dogs
  import opened Sessions
  import opened Custody
  import opened Servers

  ghost predicate AllConserved(sessions: seq<SessionState>) {
    forall i :: 0 <= i < |sessions| ==> Conserved(sessions[i])
  }

  ghost predicate AllSettled(sessions: seq<SessionState>) {
    forall i :: 0 <= i < |sessions| ==> Settled(sessions[i])
  }

  ghost predicate AllIssued(sessions: seq<SessionState>) {
    forall i :: 0 <= i < |sessions| ==> Issued(sessions[i])
  }

  ghost predicate AllBalanced(sessions: seq<SessionState>) { AllConserved(sessions) && AllSettled(sessions) }

  lemma NewSessionBooks(m: MapConfig)
    ensures Conserved(NewSession(m)) && Settled(NewSession(m)) && Issued(NewSession(m))
  {
    var s := NewSession(m);
    assert Ground(s.loots) == map[] && Bags(s.dogs) == map[] && Scores(s.dogs) == map[];
    forall id: nat ensures id < s.lootIdIncr <==> WasPlaced(s, id) {
    }
  }

  lemma WithDogBooks(s: SessionState, id: nat, d: DogState)
    requires Conserved(s) && d.bag == [] && d.score == 0
    ensures Conserved(WithDog(s, id, d))
    ensures Settled(s) ==> Settled(WithDog(s, id, d))
    ensures Issued(s) ==> Issued(WithDog(s, id, d))
  {
    hide Conserved, Settled;
    JoinConserves(s, id, d);
    if Issued(s) {
      SameIssued(s, WithDog(s, id, d));
    }
  }

  lemma JoinedBooks(sessions: seq<SessionState>, m: MapConfig, id: nat, d: DogState)
    requires AllConserved(sessions) && d.bag == [] && d.score == 0
    ensures AllConserved(WithDogAt(sessions, m, id, d))
    ensures AllSettled(sessions) ==> AllSettled(WithDogAt(sessions, m, id, d))
    ensures AllIssued(sessions) ==> AllIssued(WithDogAt(sessions, m, id, d))
  {
    hide Conserved, Settled, Issued, WithDog, NewSession, Emplace;
    match FindSession(sessions, m.id, |sessions|)
    case Some(i) => WithDogBooks(sessions[i], id, d);
    case None =>
      NewSessionBooks(m);
      WithDogBooks(NewSession(m), id, d);
  }

  lemma SteeredBooks(s: SessionState, id: nat, move: string)
    requires Conserved(s)
    ensures Conserved(SteeredIn(s, id, move))
    ensures Settled(s) ==> Settled(SteeredIn(s, id, move))
    ensures Issued(s) ==> Issued(SteeredIn(s, id, move))
  {
    hide Conserved, Settled;
    if id in s.dogs {
      SteerConserves(s, id, Steered(s.dogs[id], move));
    }
    if Issued(s) {
      SameIssued(s, SteeredIn(s, id, move));
    }
  }

  lemma SteeringBooks(st: ServerState, token: string, move: string)
    requires AllConserved(st.sessions)
    ensures AllConserved(Steering(st, token, move).sessions)
    ensures AllSettled(st.sessions) ==> AllSettled(Steering(st, token, move).sessions)
    ensures AllIssued(st.sessions) ==> AllIssued(Steering(st, token, move).sessions)
  {
    hide Conserved, Settled, Issued, SteeredIn;
    if token in st.tokens {
      var p := st.tokens[token];
      var r := FindSession(st.sessions, p.mapId, |st.sessions|);
      if r.Some? {
        SteeredBooks(st.sessions[r.value], p.id, move);
      }
    }
  }

  lemma TickedBooks(cfg: Config, st: ServerState, dt: nat, ts: seq<TickChoice>, i: nat)
    requires LegalSessions(cfg, st, dt, ts) && i < |ts| && Conserved(st.sessions[i])
    ensures LegalRoutes(st.sessions[i], ts[i].routes)
    ensures Conserved(Ticked(st.sessions[i], dt, ts[i]))
    ensures Settled(st.sessions[i]) && cfg.retirement > 0 ==> Settled(Ticked(st.sessions[i], dt, ts[i]))
    ensures Issued(st.sessions[i]) ==> Issued(Ticked(st.sessions[i], dt, ts[i]))
  {
    hide Ticked, Conserved, Settled, Issued;
    assert LegalTick(st.sessions[i], cfg.retirement, dt, ts[i]);
    TickConserves(st.sessions[i], cfg.retirement, dt, ts[i]);
    if Issued(st.sessions[i]) {
      TickIssues(st.sessions[i], dt, ts[i]);
    }
  }

  lemma AdvanceBooks(cfg: Config, st: ServerState, dt: nat, ts: seq<TickChoice>, dropped: map<string, nat>)
    requires AllConserved(st.sessions) && LegalSessions(cfg, st, dt, ts)
    ensures AllConserved(Advance(cfg, st, dt, ts, dropped).sessions)
    ensures AllSettled(st.sessions) && cfg.retirement > 0 ==> AllSettled(Advance(cfg, st, dt, ts, dropped).sessions)
    ensures AllIssued(st.sessions) ==> AllIssued(Advance(cfg, st, dt, ts, dropped).sessions)
  {
    hide Conserved, Settled, Issued, Ticked, LegalTick, LegalDraw, RetiresIn, AllRecords;
    forall i: nat | i < |ts|
      ensures Conserved(Advance(cfg, st, dt, ts, dropped).sessions[i])
      ensures Settled(st.sessions[i]) && cfg.retirement > 0 ==>
          Settled(Advance(cfg, st, dt, ts, dropped).sessions[i])
      ensures Issued(st.sessions[i]) ==> Issued(Advance(cfg, st, dt, ts, dropped).sessions[i])
    {
      TickedBooks(cfg, st, dt, ts, i);
    }
  }

  lemma OpenedBooks(st: ServerState)
    ensures AllBalanced(Opened(st).sessions)
  {
    forall i | 0 <= i < |st.sessions| ensures Balanced(Opened(st).sessions[i]) {
      assert Opened(st).sessions[i] == st.sessions[i].(ledger := OpeningLedger(st.sessions[i]));
    }
  }

  lemma StepBooks(cfg: Config, st: ServerState, a: Action)
    requires AllConserved(st.sessions) && Legal(cfg, st, a)
    ensures AllConserved(Step(cfg, st, a).sessions)
    ensures AllSettled(st.sessions) && cfg.retirement > 0 ==> AllSettled(Step(cfg, st, a).sessions)
    ensures AllIssued(st.sessions) && !a.Restart? ==> AllIssued(Step(cfg, st, a).sessions)
  {
    hide AllConserved, AllSettled, AllIssued, Advance, WithDogAt, Steering, LegalSessions, LegalDrop, Writes,
        LegalJoin, Restored, Opened;
    match a
    case Join(name, mapId, spawn, token) =>
      if mapId in cfg.maps {
        var m := cfg.maps[mapId];
        JoinedBooks(st.sessions, m, st.nextPlayer, NewDog(spawn.ToVec(), m.speed, name, Capacity(m)));
      }
    case Steer(token, move) => SteeringBooks(st, token, move);
    case Tick(dt, ts, dropped, saved) => AdvanceBooks(cfg, st, dt, ts, dropped);
    case Save(saved) =>
    case Restart =>
      FreshBooks(cfg);
      if cfg.hasStateFile && st.disk.Some? {
        OpenedBooks(Restored(cfg, Fresh(cfg).(records := st.records, disk := st.disk), st.disk.value));
      }
  }

  lemma FreshBooks(cfg: Config)
    ensures AllBalanced(Fresh(cfg).sessions) && AllIssued(Fresh(cfg).sessions)
  {
  }

  // Custody holds in every reachable state, whatever the retirement time: all that was placed is on the
  // ground, in a bag, delivered or lost. Restarts open new books with what was restored.
  lemma {:induction false} RunConserved(cfg: Config, r: Run, n: nat)
    requires IsRun(cfg, r) && r.states[0] == Fresh(cfg) && n < |r.states|
    ensures AllConserved(r.states[n].sessions)
  {
    hide AllConserved, AllSettled, AllIssued, Legal, Step, IsRun;
    if n == 0 {
      FreshBooks(cfg);
    } else {
      RunConserved(cfg, r, n - 1);
      RunStep(cfg, r, n - 1);
      StepBooks(cfg, r.states[n - 1], r.actions[n - 1]);
    }
  }

  // With a positive retirement time the scores and records make up what was delivered, too.
  lemma {:induction false} RunBalanced(cfg: Config, r: Run, n: nat)
    requires cfg.retirement > 0 && IsRun(cfg, r) && r.states[0] == Fresh(cfg) && n < |r.states|
    ensures AllBalanced(r.states[n].sessions)
  {
    hide AllConserved, AllSettled, AllIssued, Legal, Step, IsRun;
    if n == 0 {
      FreshBooks(cfg);
    } else {
      RunBalanced(cfg, r, n - 1);
      RunStep(cfg, r, n - 1);
      StepBooks(cfg, r.states[n - 1], r.actions[n - 1]);
    }
  }

  lemma {:induction false} RunIssued(cfg: Config, r: Run, n: nat)
    requires IsRun(cfg, r) && NoRestart(r) && r.states[0] == Fresh(cfg) && n < |r.states|
    ensures AllConserved(r.states[n].sessions) && AllIssued(r.states[n].sessions)
  {
    hide AllConserved, AllSettled, AllIssued, Legal, Step, IsRun;
    if n == 0 {
      FreshBooks(cfg);
    } else {
      RunIssued(cfg, r, n - 1);
      RunStep(cfg, r, n - 1);
      assert !r.actions[n - 1].Restart?;
      StepBooks(cfg, r.states[n - 1], r.actions[n - 1]);
    }
  }

  // From an empty server: every id a session ever issued is in exactly one place, and no other id is
  // anywhere.
  lemma RunCustody(cfg: Config, r: Run, n: nat, k: nat, id: nat)
    requires IsRun(cfg, r) && NoRestart(r) && r.states[0] == Fresh(cfg)
    requires n < |r.states| && k < |r.states[n].sessions|
    ensures var s := r.states[n].sessions[k];
            && (id < s.lootIdIncr ==> InOnePlace(s, id))
            && (id >= s.lootIdIncr ==> Nowhere(s, id))
  {
    RunIssued(cfg, r, n);
    ExactlyOnePlace(r.states[n].sessions[k], id);
  }

  // ---------- Records and value ----------

  function ScoreOf(r: Record): int { r.score }

  ghost function Recorded(s: SessionState): int { s.ledger.recorded }

  ghost function RecordTotal(records: seq<Record>): int { Total(ScoreOf, records, |records|) }

  lemma {:induction false} PlacedRecorded(s: SessionState, drawn: seq<Loot>, n: nat)
    requires n <= |drawn|
    ensures Recorded(AllPlaced(s, drawn, n)) == Recorded(s)
  {
    if n > 0 {
      PlacedRecorded(s, drawn, n - 1);
    }
  }

  lemma {:induction false} EventsRecorded(s: SessionState, events: seq<Gather.Event>, n: nat)
    requires n <= |events|
    ensures Recorded(AfterEvents(s, events, n)) == Recorded(s)
  {
    if n > 0 {
      EventsRecorded(s, events, n - 1);
    }
  }

  lemma {:induction false} RemovedRecorded(s: SessionState, rs: seq<Retiree>, n: nat)
    requires n <= |rs|
    ensures |RecordsOf(rs, n)| == n
    ensures Recorded(AllRemoved(s, rs, n)) == Recorded(s) + Total(ScoreOf, RecordsOf(rs, n), n)
  {
    if n > 0 {
      RemovedRecorded(s, rs, n - 1);
      TotalPrefix(ScoreOf, RecordsOf(rs, n), RecordsOf(rs, n - 1), n - 1);
    }
  }

  lemma TickedRecorded(s: SessionState, dt: nat, c: TickChoice)
    requires LegalRoutes(s, c.routes)
    ensures Recorded(Ticked(s, dt, c)) == Recorded(s) + RecordTotal(RecordsOf(c.retirees, |c.retirees|))
  {
    hide AllPlaced, AfterEvents, AllRemoved, RecordsOf, LegalRoutes;
    RoutesInRange(s, c.routes);
    PlacedRecorded(Waited(s, dt, c.drawn), c.drawn, |c.drawn|);
    EventsRecorded(MovedIn(s, dt, c), c.events, |c.events|);
    RemovedRecorded(Gathered(s, dt, c), c.retirees, |c.retirees|);
  }

  // What the sessions recorded in a tick is what the server wrote.
  lemma {:induction false} AdvanceRecorded(st: ServerState, dt: nat, ts: seq<TickChoice>, after: seq<SessionState>,
      n: nat)
    requires n <= |ts| == |st.sessions| == |after|
    requires forall i :: 0 <= i < n ==>
        LegalRoutes(st.sessions[i], ts[i].routes) && after[i] == Ticked(st.sessions[i], dt, ts[i])
    ensures Total(Recorded, after, n) == Total(Recorded, st.sessions, n) + RecordTotal(AllRecords(ts, n))
  {
    hide Ticked, LegalRoutes, Recorded, RecordsOf;
    if n > 0 {
      AdvanceRecorded(st, dt, ts, after, n - 1);
      TickedRecorded(st.sessions[n - 1], dt, ts[n - 1]);
      var written := RecordsOf(ts[n - 1].retirees, |ts[n - 1].retirees|);
      TotalConcat(ScoreOf, AllRecords(ts, n - 1), written, |written|);
    }
  }

  ghost function RecordedIn(st: ServerState): int { Total(Recorded, st.sessions, |st.sessions|) }

  lemma TickRecords(cfg: Config, st: ServerState, a: Action)
    requires Legal(cfg, st, a) && a.Tick?
    ensures RecordTotal(Step(cfg, st, a).records) - RecordTotal(st.records) ==
        RecordedIn(Step(cfg, st, a)) - RecordedIn(st)
  {
    hide Ticked, LegalTick, LegalDraw, Recorded, Total, Step, Legal, AllRecords;
    TickWrites(cfg, st, a);
    var r := Step(cfg, st, a);
    forall i: nat | i < |st.sessions|
      ensures LegalRoutes(st.sessions[i], a.ts[i].routes) && r.sessions[i] == Ticked(st.sessions[i], a.dt, a.ts[i])
    {
      TickStep(cfg, st, a, i);
    }
    AdvanceRecorded(st, a.dt, a.ts, r.sessions, |a.ts|);
    TotalConcat(ScoreOf, st.records, AllRecords(a.ts, |a.ts|), |AllRecords(a.ts, |a.ts|)|);
  }

  lemma TickWrites(cfg: Config, st: ServerState, a: Action)
    requires Legal(cfg, st, a) && a.Tick?
    ensures |a.ts| == |st.sessions| == |Step(cfg, st, a).sessions|
    ensures Step(cfg, st, a).records == st.records + AllRecords(a.ts, |a.ts|)
  {
  }

  // Joining, steering and saving write no records.
  lemma OthersRecord(cfg: Config, st: ServerState, a: Action)
    requires Legal(cfg, st, a) && !a.Tick? && !a.Restart?
    ensures Step(cfg, st, a).records == st.records && RecordedIn(Step(cfg, st, a)) == RecordedIn(st)
  {
    hide Total, LegalJoin, Writes;
    var ss, after := st.sessions, Step(cfg, st, a).sessions;
    SessionsStay(cfg, st, a);
    TotalSame(Recorded, after, ss, |ss|);
    if |after| > |ss| {
      LastRecorded(after);
    }
  }

  lemma LastRecorded(ss: seq<SessionState>)
    requires |ss| > 0 && Recorded(ss[|ss| - 1]) == 0
    ensures Total(Recorded, ss, |ss|) == Total(Recorded, ss, |ss| - 1)
  {
  }

  lemma SessionsStay(cfg: Config, st: ServerState, a: Action)
    requires Legal(cfg, st, a) && !a.Tick? && !a.Restart?
    ensures var after := Step(cfg, st, a).sessions;
            && |st.sessions| <= |after| <= |st.sessions| + 1
            && (forall i :: 0 <= i < |st.sessions| ==> Recorded(after[i]) == Recorded(st.sessions[i]))
            && (|after| > |st.sessions| ==> Recorded(after[|st.sessions|]) == 0)
  {
  }

  lemma RestartRecords(cfg: Config, st: ServerState, a: Action)
    requires Legal(cfg, st, a) && a.Restart?
    ensures Step(cfg, st, a).records == st.records && RecordedIn(Step(cfg, st, a)) == 0
  {
    hide Total, HomedAll, SeatedAll, TokenedAll, Restorable, Sums.Union, Sums.Sum;
    NoneRecorded(Step(cfg, st, a).sessions, |Step(cfg, st, a).sessions|);
  }

  lemma {:induction false} NoneRecorded(ss: seq<SessionState>, n: nat)
    requires n <= |ss| && forall i :: 0 <= i < n ==> Recorded(ss[i]) == 0
    ensures Total(Recorded, ss, n) == 0
  {
    hide Recorded;
    if n > 0 {
      NoneRecorded(ss, n - 1);
    }
  }

  // The total score of the records that the process of state n found when it started.
  ghost function RecordsFound(r: Run, n: nat): int
    requires n < |r.states| && n <= |r.actions|
  {
    if n == 0 then 0
    else if r.actions[n - 1].Restart? then RecordTotal(r.states[n].records)
    else RecordsFound(r, n - 1)
  }

  // The scores that the sessions of a process have recorded are those of the records it has saved.
  lemma {:induction false} RunRecords(cfg: Config, r: Run, n: nat)
    requires IsRun(cfg, r) && r.states[0] == Fresh(cfg) && n < |r.states|
    ensures n <= |r.actions|
    ensures RecordTotal(r.states[n].records) == RecordsFound(r, n) + RecordedIn(r.states[n])
    ensures NoRestart(r) ==> RecordsFound(r, n) == 0
  {
    hide Legal, Step, IsRun, RecordTotal, RecordedIn;
    if n == 0 {
      NothingRecorded(cfg);
    } else {
      RunRecords(cfg, r, n - 1);
      RunStep(cfg, r, n - 1);
      if r.actions[n - 1].Tick? {
        TickRecords(cfg, r.states[n - 1], r.actions[n - 1]);
      } else if r.actions[n - 1].Restart? {
        RestartRecords(cfg, r.states[n - 1], r.actions[n - 1]);
      } else {
        OthersRecord(cfg, r.states[n - 1], r.actions[n - 1]);
      }
    }
  }

  lemma NothingRecorded(cfg: Config)
    ensures RecordTotal(Fresh(cfg).records) == 0 && RecordedIn(Fresh(cfg)) == 0
  {
  }

  // What a session ever had to give away, and what it still has or has lost; at its map's prices.
  ghost function Income(s: SessionState): int { Worth(Price(s.world), s.ledger.placed) + s.ledger.opening }

  ghost function Assets(s: SessionState): int {
    Worth(Price(s.world), Union(Ground(s.loots))) + Worth(Price(s.world), Union(Bags(s.dogs))) + Sum(Scores(s.dogs))
    + Worth(Price(s.world), s.ledger.lost)
  }

  // Over all sessions of a process: the value of all that was placed, on top of the scores restored, is
  // on the ground, in bags, in live scores, in bags lost, or in the records the process saved.
  lemma RunValue(cfg: Config, r: Run, n: nat)
    requires cfg.retirement > 0 && IsRun(cfg, r) && r.states[0] == Fresh(cfg) && n < |r.states|
    ensures n <= |r.actions|
    ensures var ss := r.states[n].sessions;
            Total(Income, ss, |ss|) == Total(Assets, ss, |ss|) + RecordTotal(r.states[n].records) - RecordsFound(r, n)
    ensures NoRestart(r) ==> RecordsFound(r, n) == 0
  {
    hide Legal, Step, IsRun, RecordTotal, Income, Assets, Recorded, Conserved, Settled, NoRestart;
    RunBalanced(cfg, r, n);
    RunRecords(cfg, r, n);
    var ss := r.states[n].sessions;
    forall i | 0 <= i < |ss| ensures Income(ss[i]) == Assets(ss[i]) + Recorded(ss[i]) {
      SessionValue(ss[i]);
    }
    TotalPlus(Income, Assets, Recorded, ss, |ss|);
  }

  lemma SessionValue(s: SessionState)
    requires Conserved(s) && Settled(s)
    ensures Income(s) == Assets(s) + Recorded(s)
  {
    hide Conserved, Settled;
    ValueBalance(s);
  }
}
