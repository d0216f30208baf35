/** Life after a restart: saving again, the ids of players, and agreement of the indexes. */
module AfterRestart {
  import opened Wrappers
  import opened Roads
  import opened Sessions
  import opened Servers
  import opened Agreement
  import opened Autosave
  import opened Safety
  import opened SaveRestore

  // ---------- Which sessions are kept ----------

  lemma {:induction false} KeptFrom(sessions: seq<SessionState>, n: nat, k: nat) returns (i: nat)
    requires n <= |sessions| && k < |KeptSessions(sessions, n)|
    ensures i < n && KeptSessions(sessions, n)[k] == Kept(sessions[i])
  {
    hide Kept;
    if k < |KeptSessions(sessions, n - 1)| {
      i := KeptFrom(sessions, n - 1, k);
    } else {
      i := n - 1;
    }
  }

  lemma {:induction false} KeptTo(sessions: seq<SessionState>, n: nat, i: nat) returns (k: nat)
    requires i < n <= |sessions| && sessions[i].dogs != map[]
    ensures k < |KeptSessions(sessions, n)| && KeptSessions(sessions, n)[k] == Kept(sessions[i])
  {
    hide Kept;
    if i == n - 1 {
      k := |KeptSessions(sessions, n - 1)|;
    } else {
      k := KeptTo(sessions, n - 1, i);
    }
  }

  lemma {:induction false} KeptMapsDiffer(st: ServerState, n: nat, r: ServerState)
    requires OneSessionPerMap(st.sessions) && n <= |st.sessions| && r.sessions == KeptSessions(st.sessions, n)
    ensures OneSessionPerMap(r.sessions)
  {
    if n > 0 {
      KeptMapsDiffer(st, n - 1, r.(sessions := KeptSessions(st.sessions, n - 1)));
      KeptElsewhere(st, n - 1);
    }
  }

  lemma KeptLives(st: ServerState, empty: ServerState, k: int, id: nat) returns (i: nat)
    requires Lives(Surviving(st, empty), k, id)
    ensures Lives(st, i, id) && Surviving(st, empty).sessions[k].world == st.sessions[i].world
  {
    i := KeptFrom(st.sessions, |st.sessions|, k);
  }

  lemma LivesKept(st: ServerState, empty: ServerState, i: int, id: nat) returns (k: nat)
    requires Lives(st, i, id)
    ensures Lives(Surviving(st, empty), k, id)
  {
    k := KeptTo(st.sessions, |st.sessions|, i);
  }

  // The indexes of a restored server agree if those of the saved one did.
  lemma SurvivingIndexed(st: ServerState, empty: ServerState)
    requires Indexed(st)
    ensures Indexed(Surviving(st, empty))
  {
    hide KeptSessions, OneSessionPerMap, TokensArePlayers, Lives, HasToken;
    var r := Surviving(st, empty);
    SurvivingTokens(st, empty);
    KeptMapsDiffer(st, |st.sessions|, r);
    forall k, id: nat | Lives(r, k, id)
      ensures id in r.players && 0 <= k < |r.sessions| && r.players[id] == Player(id, r.sessions[k].world.id)
    {
      var i := KeptLives(st, empty, k, id);
      LivesIndex(r, k, id);
    }
    forall id: nat | id in r.players ensures exists k :: Lives(r, k, id) {
      var i :| Lives(st, i, id);
      var k := LivesKept(st, empty, i, id);
    }
  }

  lemma LivesIndex(st: ServerState, k: int, id: nat)
    requires Lives(st, k, id)
    ensures 0 <= k < |st.sessions|
  {
  }

  lemma SurvivingTokens(st: ServerState, empty: ServerState)
    requires TokensArePlayers(st)
    ensures TokensArePlayers(Surviving(st, empty))
  {
    hide KeptSessions;
  }

  // ---------- Saving again ----------

  function NonEmpty(saved: seq<SaveSession>, n: nat): seq<SaveSession>
    requires n <= |saved|
  {
    if n == 0 then [] else NonEmpty(saved, n - 1) + if saved[n - 1].dogs == [] then [] else [saved[n - 1]]
  }

  lemma SavedAgain(s: SessionState, tokens: map<string, Player>, data: SaveSession)
    requires IsSessionBackup(s, tokens, data) && |data.dogs| > 0
    ensures IsSessionBackup(Kept(s), tokens, data)
  {
  }

  lemma {:induction false} SavedAgainAll(st: ServerState, saved: seq<SaveSession>, n: nat, r: ServerState)
    requires IsBackup(st, saved) && n <= |saved| && r.sessions == KeptSessions(st.sessions, n) && r.tokens == st.tokens
    ensures IsBackup(r, NonEmpty(saved, n))
  {
    hide IsSessionBackup, Kept;
    if n > 0 {
      SavedAgainAll(st, saved, n - 1, r.(sessions := KeptSessions(st.sessions, n - 1)));
      DogsSaved(st.sessions[n - 1], st.tokens, saved[n - 1]);
      if |saved[n - 1].dogs| > 0 {
        SavedAgain(st.sessions[n - 1], st.tokens, saved[n - 1]);
      }
    }
  }

  // Saving the restored state can reproduce the saved data without the sessions that had no dogs.
  lemma SaveAfterRestore(st: ServerState, saved: seq<SaveSession>, empty: ServerState)
    requires IsBackup(st, saved)
    ensures IsBackup(Surviving(st, empty), NonEmpty(saved, |saved|))
  {
    SavedAgainAll(st, saved, |saved|, Surviving(st, empty));
  }

  // Two saves of one state differ at most in the order of their dogs.
  ghost predicate SameSave(a: SaveSession, b: SaveSession) {
    && a.mapId == b.mapId && a.loots == b.loots && a.dogIdToToken == b.dogIdToToken
    && |a.dogs| == |b.dogs| && (forall r :: r in a.dogs <==> r in b.dogs)
  }

  lemma {:induction false} DistinctDogs(reprs: seq<DogRepr>, n: nat) returns (ids: set<nat>)
    requires n <= |reprs| && forall i, j :: 0 <= i < j < |reprs| ==> reprs[i].id != reprs[j].id
    ensures |ids| == n && forall id: nat :: id in ids <==> exists k :: 0 <= k < n && reprs[k].id == id
  {
    if n == 0 {
      ids := {};
    } else {
      ids := DistinctDogs(reprs, n - 1);
      ids := ids + {reprs[n - 1].id};
    }
  }

  lemma SavedDogIn(s: SessionState, tokens: map<string, Player>, a: SaveSession, b: SaveSession, r: DogRepr)
    requires IsSessionBackup(s, tokens, a) && IsSessionBackup(s, tokens, b) && r in a.dogs
    ensures r in b.dogs
  {
    var k :| 0 <= k < |a.dogs| && a.dogs[k] == r;
    assert Saves(b.dogs, r.id);
  }

  lemma SavedCount(s: SessionState, tokens: map<string, Player>, a: SaveSession)
    requires IsSessionBackup(s, tokens, a)
    ensures |a.dogs| == |s.dogs.Keys|
  {
    var ids := DistinctDogs(a.dogs, |a.dogs|);
    forall id: nat ensures id in ids <==> id in s.dogs {
      if id in s.dogs {
        assert Saves(a.dogs, id);
      }
    }
    assert ids == s.dogs.Keys;
  }

  lemma InverseUnique(st: ServerState, a: map<nat, string>, b: map<nat, string>)
    requires TokensArePlayers(st) && InverseOf(st.tokens, a) && InverseOf(st.tokens, b)
    ensures a == b
  {
    hide HasToken;
    assert forall id: nat :: id in a ==> id in b && a[id] == b[id];
  }

  lemma SavesAlike(st: ServerState, a: seq<SaveSession>, b: seq<SaveSession>, i: nat)
    requires TokensArePlayers(st) && IsBackup(st, a) && IsBackup(st, b) && i < |a|
    ensures |a| == |b| && SameSave(a[i], b[i])
  {
    var s := st.sessions[i];
    assert IsSessionBackup(s, st.tokens, a[i]) && IsSessionBackup(s, st.tokens, b[i]);
    forall r ensures r in a[i].dogs <==> r in b[i].dogs {
      if r in a[i].dogs {
        SavedDogIn(s, st.tokens, a[i], b[i], r);
      } else if r in b[i].dogs {
        SavedDogIn(s, st.tokens, b[i], a[i], r);
      }
    }
    SavedCount(s, st.tokens, a[i]);
    SavedCount(s, st.tokens, b[i]);
    InverseUnique(st, a[i].dogIdToToken, b[i].dogIdToToken);
  }

  // ---------- Player ids ----------

  // The restored id counter is above all ids in use if and only if they are below the number of players.
  lemma RestoredAgreesIff(st: ServerState, empty: ServerState)
    requires Indexed(st)
    ensures Agrees(Surviving(st, empty)) <==> forall id: nat :: id in st.players ==> id < |st.players|
  {
    hide Indexed;
    SurvivingIndexed(st, empty);
  }

  // The first join after a restart gets an id of its own if and only if the number of players is not an
  // id in use; otherwise its token belongs to the player who has that id.
  lemma JoinAfterRestart(cfg: Config, st: ServerState, empty: ServerState, name: string, mapId: string, spawn: Cell,
      token: string)
    requires GoodConfig(cfg) && Indexed(st) && LegalJoin(cfg, Surviving(st, empty), mapId, spawn, token) &&
        mapId in cfg.maps
    ensures var r := Joined(cfg, Surviving(st, empty), name, mapId, spawn, token);
            && token in r.tokens
            && (Indexed(r) <==> |st.players| !in st.players)
            && (|st.players| in st.players ==> r.tokens[token] == st.players[|st.players|])
  {
    hide Indexed, Joined, LegalJoin, GoodConfig;
    SurvivingIndexed(st, empty);
    if |st.players| in st.players {
      JoinedHijacks(cfg, Surviving(st, empty), name, mapId, spawn, token);
    } else {
      JoinedIndexed(cfg, Surviving(st, empty), name, mapId, spawn, token);
    }
  }

  // ---------- Agreement over runs with restarts ----------

  // What is on disk was saved from a server whose indexes agreed.
  ghost predicate IndexedDisk(cfg: Config, disk: Option<seq<SaveSession>>) {
    disk.Some? ==> exists b :: Indexed(b) && Configured(cfg, b) && IsBackup(b, disk.value)
  }

  lemma SafeIsConfigured(cfg: Config, st: ServerState)
    requires SafeServer(cfg, st)
    ensures Configured(cfg, st)
  {
  }

  lemma OpenedIndexed(st: ServerState)
    requires Indexed(st)
    ensures Indexed(Opened(st))
  {
    hide Indexed, OpeningLedger;
    SameTablesIndexed(st, Opened(st));
  }

  lemma RestartIndexed(cfg: Config, st: ServerState)
    requires Legal(cfg, st, Restart) && IndexedDisk(cfg, st.disk)
    ensures Indexed(Step(cfg, st, Restart)) && Step(cfg, st, Restart).disk == st.disk
  {
    hide Indexed, Configured, IsBackup, Restored, Opened, Restorable;
    var empty := Fresh(cfg).(records := st.records, disk := st.disk);
    if cfg.hasStateFile && st.disk.Some? {
      var b :| Indexed(b) && Configured(cfg, b) && IsBackup(b, st.disk.value);
      RoundTrip(cfg, b, st.disk.value, empty);
      SurvivingIndexed(b, empty);
      OpenedIndexed(Restored(cfg, empty, st.disk.value));
      OpenedDisk(Restored(cfg, empty, st.disk.value));
    } else {
      EmptyIndexed(empty);
    }
  }

  lemma OpenedDisk(st: ServerState)
    ensures Opened(st).disk == st.disk
  {
  }

  lemma EmptyIndexed(st: ServerState)
    requires st.sessions == [] && st.players == map[] && st.tokens == map[]
    ensures Indexed(st)
  {
  }

  lemma StepDiskIndexed(cfg: Config, st: ServerState, a: Action)
    requires Legal(cfg, st, a) && !a.Restart? && IndexedDisk(cfg, st.disk)
    requires Indexed(Step(cfg, st, a)) && Configured(cfg, Step(cfg, st, a))
    ensures IndexedDisk(cfg, Step(cfg, st, a).disk)
  {
    hide Indexed, Configured, IsBackup, Step, Legal;
    StepDisk(cfg, st, a);
  }

  ghost predicate FreshJoins(cfg: Config, r: Run, n: nat) {
    forall i: nat :: i < n && i < |r.actions| && i < |r.states| ==> FreshJoin(cfg, r.states[i], r.actions[i])
  }

  // Over every run, restarts included, the three indexes agree as long as no join meets an id in use.
  lemma {:induction false} RunIndexed(cfg: Config, r: Run, n: nat)
    requires GoodConfig(cfg) && IsRun(cfg, r) && r.states[0] == Fresh(cfg) && n < |r.states| && FreshJoins(cfg, r, n)
    ensures Indexed(r.states[n]) && IndexedDisk(cfg, r.states[n].disk)
  {
    hide Indexed, IndexedDisk, Legal, Step, IsRun, GoodConfig, SafeServer, Configured, FreshJoin;
    if n == 0 {
      EmptyIndexed(r.states[0]);
      NoDiskIndexed(cfg);
    } else {
      RunIndexed(cfg, r, n - 1);
      RunStep(cfg, r, n - 1);
      var st, a := r.states[n - 1], r.actions[n - 1];
      if a.Restart? {
        RestartIndexed(cfg, st);
      } else {
        StepIndexed(cfg, st, a);
        RunSafe(cfg, r, n);
        SafeIsConfigured(cfg, r.states[n]);
        StepDiskIndexed(cfg, st, a);
      }
    }
  }

  // And only so long: the first join that meets an id in use ends the agreement.
  lemma RunIndexedIff(cfg: Config, r: Run, n: nat)
    requires GoodConfig(cfg) && IsRun(cfg, r) && r.states[0] == Fresh(cfg) && n < |r.states|
    ensures FreshJoins(cfg, r, n) <==> forall m: nat :: m <= n ==> Indexed(r.states[m])
  {
    hide Indexed, Legal, Step, IsRun, GoodConfig, FreshJoin;
    NotPastEnd(cfg, r, n);
    if FreshJoins(cfg, r, n) {
      forall m: nat | m <= n ensures Indexed(r.states[m]) {
        RunIndexed(cfg, r, m);
      }
    }
    if forall m: nat :: m <= n ==> Indexed(r.states[m]) {
      forall i: nat | i < n ensures FreshJoin(cfg, r.states[i], r.actions[i]) {
        RunStep(cfg, r, i);
        StayedIndexed(cfg, r.states[i], r.actions[i]);
      }
    }
  }

  lemma StayedIndexed(cfg: Config, st: ServerState, a: Action)
    requires GoodConfig(cfg) && Legal(cfg, st, a) && Indexed(st) && Indexed(Step(cfg, st, a))
    ensures FreshJoin(cfg, st, a)
  {
    hide Indexed, GoodConfig, Joined, LegalJoin;
    if a.Join? && a.mapId in cfg.maps && st.nextPlayer in st.players {
      JoinedHijacks(cfg, st, a.name, a.mapId, a.spawn, a.token);
    }
  }

  lemma NoDiskIndexed(cfg: Config)
    ensures IndexedDisk(cfg, None)
  {
  }
}
