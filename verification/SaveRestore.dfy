/** Restoring a saved state into an empty server: what comes back, and what does not. */
module SaveRestore {
  import opened Wrappers
  import opened Dogs
  import opened Sessions
  import opened Servers
  import opened Agreement

  // ---------- One dog ----------

  function Survivor(d: DogState): DogState { d.(lifeTime := 0, stopTime := 0) }

  // A dog comes back as it was, but for its timers; and what is saved of a restored dog is what it
  // was restored from.
  lemma DogRoundTrip(id: nat, d: DogState, r: DogRepr)
    ensures RestoredDog(ReprOf(id, d)) == Survivor(d)
    ensures ReprOf(r.id, RestoredDog(r)) == r
  {
  }

  // ---------- The sessions ----------

  function Survivors(dogs: map<nat, DogState>): map<nat, DogState> { map id: nat | id in dogs :: Survivor(dogs[id]) }

  // What is left of a session: its dogs and lost things; the id counter restarts at their number.
  function Kept(s: SessionState): SessionState {
    SessionState(s.world, Survivors(s.dogs), s.loots, |s.loots|, 0, EMPTY_LEDGER)
  }

  function KeptSessions(sessions: seq<SessionState>, n: nat): seq<SessionState>
    requires n <= |sessions|
  {
    if n == 0 then []
    else KeptSessions(sessions, n - 1) + if sessions[n - 1].dogs == map[] then [] else [Kept(sessions[n - 1])]
  }

  // The dogs of a session after the first n were restored.
  function Back(data: SaveSession, n: nat): map<nat, DogState>
    requires n <= |data.dogs|
  {
    if n == 0 then map[] else Emplace(Back(data, n - 1), data.dogs[n - 1].id, RestoredDog(data.dogs[n - 1]))
  }

  function BackIn(m: MapConfig, data: SaveSession, n: nat): SessionState
    requires n <= |data.dogs|
  {
    SessionState(m, Back(data, n), data.loots, |data.loots|, 0, EMPTY_LEDGER)
  }

  ghost predicate NoneOn(sessions: seq<SessionState>, mapId: string) {
    forall i :: 0 <= i < |sessions| ==> sessions[i].world.id != mapId
  }

  lemma FindsLast(sessions: seq<SessionState>, s: SessionState)
    requires NoneOn(sessions, s.world.id)
    ensures FindSession(sessions, s.world.id, |sessions|) == None
    ensures FindSession(sessions + [s], s.world.id, |sessions| + 1) == Some(|sessions|)
  {
    FindSessionIsFirst(sessions, s.world.id, |sessions|);
    FindSessionIsFirst(sessions + [s], s.world.id, |sessions| + 1);
  }

  lemma HomedDogsNext(sessions: seq<SessionState>, m: MapConfig, data: SaveSession, n: nat)
    requires 0 < n <= |data.dogs|
    ensures HomedDogs(sessions, m, data, n) == Homed(HomedDogs(sessions, m, data, n - 1), m, data, data.dogs[n - 1])
  {
    hide Homed;
  }

  lemma HomedFirst(sessions: seq<SessionState>, m: MapConfig, data: SaveSession)
    requires NoneOn(sessions, m.id) && |data.dogs| > 0
    ensures Homed(sessions, m, data, data.dogs[0]) == sessions + [BackIn(m, data, 1)]
  {
    hide FindSession;
    FindsLast(sessions, BackIn(m, data, 1));
    assert Back(data, 1) == Emplace(Back(data, 0), data.dogs[0].id, RestoredDog(data.dogs[0]));
  }

  lemma HomedLater(sessions: seq<SessionState>, m: MapConfig, data: SaveSession, n: nat)
    requires NoneOn(sessions, m.id) && 0 < n <= |data.dogs|
    ensures Homed(sessions + [BackIn(m, data, n - 1)], m, data, data.dogs[n - 1]) == sessions + [BackIn(m, data, n)]
  {
    hide FindSession, Emplace;
    FindsLast(sessions, BackIn(m, data, n - 1));
    assert BackIn(m, data, n) == WithDog(BackIn(m, data, n - 1), data.dogs[n - 1].id, RestoredDog(data.dogs[n - 1]));
  }

  // The first dog of a saved session creates the session, the others join it.
  lemma {:induction false} HomedDogsAppend(sessions: seq<SessionState>, m: MapConfig, data: SaveSession, n: nat)
    requires NoneOn(sessions, m.id) && n <= |data.dogs|
    ensures HomedDogs(sessions, m, data, n) == if n == 0 then sessions else sessions + [BackIn(m, data, n)]
  {
    hide Homed, HomedDogs, BackIn, NoneOn;
    if n == 0 {
      HomedNone(sessions, m, data);
    } else {
      HomedDogsAppend(sessions, m, data, n - 1);
      HomedDogsNext(sessions, m, data, n);
      if n == 1 {
        HomedFirst(sessions, m, data);
      } else {
        HomedLater(sessions, m, data, n);
      }
    }
  }

  lemma HomedNone(sessions: seq<SessionState>, m: MapConfig, data: SaveSession)
    ensures HomedDogs(sessions, m, data, 0) == sessions
  {
  }

  lemma {:induction false} BackDog(data: SaveSession, n: nat, k: nat)
    requires k < n <= |data.dogs| && forall i, j :: 0 <= i < j < |data.dogs| ==> data.dogs[i].id != data.dogs[j].id
    ensures var id := data.dogs[k].id; id in Back(data, n) && Back(data, n)[id] == RestoredDog(data.dogs[k])
  {
    if k < n - 1 {
      BackDog(data, n - 1, k);
    } else {
      BackOnly(data, n - 1, data.dogs[k].id);
    }
  }

  lemma {:induction false} BackOnly(data: SaveSession, n: nat, id: nat)
    requires n <= |data.dogs|
    ensures id in Back(data, n) <==> exists k :: 0 <= k < n && data.dogs[k].id == id
  {
    if n > 0 {
      BackOnly(data, n - 1, id);
      if data.dogs[n - 1].id == id {
      }
    }
  }

  lemma BackIsKept(s: SessionState, tokens: map<string, Player>, data: SaveSession)
    requires IsSessionBackup(s, tokens, data)
    ensures Back(data, |data.dogs|) == Survivors(s.dogs)
  {
    hide Back, RestoredDog, Survivor, ReprOf, InverseOf;
    forall id: nat ensures id in Back(data, |data.dogs|) <==> id in s.dogs {
      BackOnly(data, |data.dogs|, id);
      if id in s.dogs {
        assert Saves(data.dogs, id);
      }
    }
    forall id: nat | id in s.dogs ensures Back(data, |data.dogs|)[id] == Survivor(s.dogs[id]) {
      assert Saves(data.dogs, id);
      var k :| 0 <= k < |data.dogs| && data.dogs[k].id == id;
      BackDog(data, |data.dogs|, k);
      DogRoundTrip(id, s.dogs[id], data.dogs[k]);
    }
  }

  lemma DogsSaved(s: SessionState, tokens: map<string, Player>, data: SaveSession)
    requires IsSessionBackup(s, tokens, data)
    ensures |data.dogs| == 0 <==> s.dogs == map[]
  {
    if |data.dogs| > 0 {
      assert data.dogs[0].id in s.dogs;
    }
    if s.dogs != map[] {
      var id: nat :| id in s.dogs;
      assert Saves(data.dogs, id);
    }
  }

  // ---------- The sessions, all together ----------

  lemma {:induction false} KeptWorlds(sessions: seq<SessionState>, n: nat, k: nat)
    requires n <= |sessions| && k < |KeptSessions(sessions, n)|
    ensures exists i :: 0 <= i < n && KeptSessions(sessions, n)[k].world == sessions[i].world
  {
    if k < |KeptSessions(sessions, n - 1)| {
      KeptWorlds(sessions, n - 1, k);
    }
  }

  lemma KeptElsewhere(st: ServerState, n: nat)
    requires OneSessionPerMap(st.sessions) && n < |st.sessions|
    ensures NoneOn(KeptSessions(st.sessions, n), st.sessions[n].world.id)
  {
    var kept := KeptSessions(st.sessions, n);
    forall k | 0 <= k < |kept| ensures kept[k].world.id != st.sessions[n].world.id {
      KeptWorlds(st.sessions, n, k);
    }
  }

  lemma SessionBack(sessions: seq<SessionState>, s: SessionState, tokens: map<string, Player>, data: SaveSession)
    requires IsSessionBackup(s, tokens, data) && NoneOn(sessions, s.world.id)
    ensures HomedDogs(sessions, s.world, data, |data.dogs|) == sessions + if s.dogs == map[] then [] else [Kept(s)]
  {
    hide HomedDogs, NoneOn, Back;
    HomedDogsAppend(sessions, s.world, data, |data.dogs|);
    DogsSaved(s, tokens, data);
    BackIsKept(s, tokens, data);
  }

  // The worlds of the sessions are those of the configuration.
  ghost predicate Configured(cfg: Config, st: ServerState) {
    forall i :: 0 <= i < |st.sessions| ==>
        st.sessions[i].world.id in cfg.maps && st.sessions[i].world == cfg.maps[st.sessions[i].world.id]
  }

  lemma BackupRestorable(cfg: Config, st: ServerState, saved: seq<SaveSession>)
    requires Configured(cfg, st) && IsBackup(st, saved)
    ensures Restorable(cfg, saved)
    ensures forall i :: 0 <= i < |saved| ==> cfg.maps[saved[i].mapId] == st.sessions[i].world
  {
    assert forall i :: 0 <= i < |saved| ==> IsSessionBackup(st.sessions[i], st.tokens, saved[i]);
  }

  lemma {:induction false} SessionsBack(cfg: Config, st: ServerState, saved: seq<SaveSession>, n: nat)
    requires Configured(cfg, st) && OneSessionPerMap(st.sessions) && IsBackup(st, saved) && n <= |saved|
    ensures Restorable(cfg, saved) && HomedAll(cfg, [], saved, n) == KeptSessions(st.sessions, n)
  {
    hide IsSessionBackup, OneSessionPerMap, HomedDogs, Configured, Restorable, Kept;
    BackupRestorable(cfg, st, saved);
    if n > 0 {
      SessionsBack(cfg, st, saved, n - 1);
      KeptElsewhere(st, n - 1);
      SessionBack(KeptSessions(st.sessions, n - 1), st.sessions[n - 1], st.tokens, saved[n - 1]);
    }
  }

  // ---------- The tables ----------

  ghost function IdsIn(data: SaveSession, n: nat): iset<nat>
    requires n <= |data.dogs|
  {
    if n == 0 then iset{} else IdsIn(data, n - 1) + iset{data.dogs[n - 1].id}
  }

  ghost function IdsInAll(saved: seq<SaveSession>, n: nat): iset<nat>
    requires n <= |saved|
  {
    if n == 0 then iset{} else IdsInAll(saved, n - 1) + IdsIn(saved[n - 1], |saved[n - 1].dogs|)
  }

  // The part of the player table, or of the token table, that belongs to these ids.
  ghost predicate PlayersOf(st: ServerState, ids: iset<nat>, players: map<nat, Player>) {
    && (forall id: nat :: id in players <==> id in st.players && id in ids)
    && (forall id: nat :: id in players ==> players[id] == st.players[id])
  }

  ghost predicate TokensOf(st: ServerState, ids: iset<nat>, tokens: map<string, Player>) {
    && (forall t :: t in tokens <==> t in st.tokens && st.tokens[t].id in ids)
    && (forall t :: t in tokens ==> tokens[t] == st.tokens[t])
  }

  lemma PlayerBack(st: ServerState, i: nat, data: SaveSession, ids: iset<nat>, players: map<nat, Player>, k: nat)
    requires DogsArePlayers(st) && i < |st.sessions| && IsSessionBackup(st.sessions[i], st.tokens, data) &&
        k < |data.dogs|
    requires PlayersOf(st, ids, players)
    ensures var id := data.dogs[k].id; PlayersOf(st, ids + iset{id}, Emplace(players, id, Player(id, data.mapId)))
  {
    assert Lives(st, i, data.dogs[k].id);
  }

  // The saved token of a dog is its token.
  lemma SavedToken(st: ServerState, i: nat, data: SaveSession, k: nat)
    requires DogsArePlayers(st) && TokensArePlayers(st)
    requires i < |st.sessions| && IsSessionBackup(st.sessions[i], st.tokens, data) && k < |data.dogs|
    ensures var id, t := data.dogs[k].id, TokenOf(data, data.dogs[k].id);
            && id in st.players && t in st.tokens && st.tokens[t] == st.players[id] && st.tokens[t].id == id
            && forall u :: u in st.tokens && st.tokens[u].id == id ==> u == t
  {
    var id := data.dogs[k].id;
    assert Lives(st, i, id);
    assert HasToken(st.tokens, id);
    assert id in data.dogIdToToken;
  }

  lemma TokenBack(st: ServerState, id: nat, t: string, ids: iset<nat>, tokens: map<string, Player>)
    requires t in st.tokens && st.tokens[t].id == id
    requires forall u :: u in st.tokens && st.tokens[u].id == id ==> u == t
    requires TokensOf(st, ids, tokens)
    ensures TokensOf(st, ids + iset{id}, tokens[t := st.tokens[t]])
  {
  }

  ghost predicate TablesOf(st: ServerState, ids: iset<nat>, players: map<nat, Player>, tokens: map<string, Player>) {
    PlayersOf(st, ids, players) && TokensOf(st, ids, tokens)
  }

  lemma {:induction false} DogsTablesBack(st: ServerState, i: nat, data: SaveSession, ids: iset<nat>,
      players: map<nat, Player>, tokens: map<string, Player>, n: nat)
    requires DogsArePlayers(st) && TokensArePlayers(st)
    requires i < |st.sessions| && IsSessionBackup(st.sessions[i], st.tokens, data) && n <= |data.dogs|
    requires TablesOf(st, ids, players, tokens)
    ensures TablesOf(st, ids + IdsIn(data, n), SeatedDogs(players, data, n), TokenedDogs(tokens, players, data, n))
  {
    hide DogsArePlayers, TokensArePlayers, IsSessionBackup, TokensOf, Emplace, TokenOf;
    if n == 0 {
      assert ids + IdsIn(data, 0) == ids;
    } else {
      DogsTablesBack(st, i, data, ids, players, tokens, n - 1);
      var before := ids + IdsIn(data, n - 1);
      PlayerBack(st, i, data, before, SeatedDogs(players, data, n - 1), n - 1);
      SavedToken(st, i, data, n - 1);
      var id := data.dogs[n - 1].id;
      TokenBack(st, id, TokenOf(data, id), before, TokenedDogs(tokens, players, data, n - 1));
      assert ids + IdsIn(data, n) == before + iset{id};
    }
  }

  lemma {:induction false} TablesBack(st: ServerState, saved: seq<SaveSession>, n: nat)
    requires DogsArePlayers(st) && TokensArePlayers(st) && IsBackup(st, saved) && n <= |saved|
    ensures TablesOf(st, IdsInAll(saved, n), SeatedAll(map[], saved, n), TokenedAll(map[], map[], saved, n))
  {
    hide DogsArePlayers, TokensArePlayers, IsSessionBackup, TokensOf, PlayersOf, IdsIn, SeatedDogs, TokenedDogs;
    if n == 0 {
      NoTables(st);
    } else {
      TablesBack(st, saved, n - 1);
      var data, players, tokens := saved[n - 1], SeatedAll(map[], saved, n - 1), TokenedAll(map[], map[], saved, n - 1);
      DogsTablesBack(st, n - 1, data, IdsInAll(saved, n - 1), players, tokens, |data.dogs|);
    }
  }

  lemma NoTables(st: ServerState)
    ensures TablesOf(st, iset{}, map[], map[])
  {
  }

  lemma {:induction false} IdIn(data: SaveSession, n: nat, k: nat)
    requires k < n <= |data.dogs|
    ensures data.dogs[k].id in IdsIn(data, n)
  {
    if k < n - 1 {
      IdIn(data, n - 1, k);
    }
  }

  lemma {:induction false} IdInAll(saved: seq<SaveSession>, n: nat, i: nat, k: nat)
    requires i < n <= |saved| && k < |saved[i].dogs|
    ensures saved[i].dogs[k].id in IdsInAll(saved, n)
  {
    if i < n - 1 {
      IdInAll(saved, n - 1, i, k);
    } else {
      IdIn(saved[i], |saved[i].dogs|, k);
    }
  }

  lemma PlayerSaved(st: ServerState, saved: seq<SaveSession>, id: nat)
    requires DogsArePlayers(st) && IsBackup(st, saved) && id in st.players
    ensures id in IdsInAll(saved, |saved|)
  {
    var i :| Lives(st, i, id);
    assert IsSessionBackup(st.sessions[i], st.tokens, saved[i]);
    assert Saves(saved[i].dogs, id);
    var k :| 0 <= k < |saved[i].dogs| && saved[i].dogs[k].id == id;
    IdInAll(saved, |saved|, i, k);
  }

  lemma AllTablesBack(st: ServerState, saved: seq<SaveSession>)
    requires DogsArePlayers(st) && TokensArePlayers(st) && IsBackup(st, saved)
    ensures SeatedAll(map[], saved, |saved|) == st.players
    ensures TokenedAll(map[], map[], saved, |saved|) == st.tokens
  {
    hide DogsArePlayers, IsBackup, IdsInAll, SeatedAll, TokenedAll, HasToken;
    TablesBack(st, saved, |saved|);
    forall id: nat | id in st.players ensures id in IdsInAll(saved, |saved|) {
      PlayerSaved(st, saved, id);
    }
  }

  // ---------- The round trip ----------

  // What a restored server has of the state it was saved from.
  function Surviving(st: ServerState, empty: ServerState): ServerState {
    empty.(sessions := KeptSessions(st.sessions, |st.sessions|),
           players := st.players, tokens := st.tokens, nextPlayer := |st.players|)
  }

  // Restoring a backup into an empty server gives back the sessions with dogs, the dogs but for their
  // timers, the lost things, the player table and the token table.
  lemma RoundTrip(cfg: Config, st: ServerState, saved: seq<SaveSession>, empty: ServerState)
    requires Configured(cfg, st) && Indexed(st) && IsBackup(st, saved)
    requires empty.sessions == [] && empty.players == map[] && empty.tokens == map[]
    ensures Restorable(cfg, saved) && Restored(cfg, empty, saved) == Surviving(st, empty)
    ensures var r := Restored(cfg, empty, saved);
            && r.players == st.players && r.tokens == st.tokens && r.nextPlayer == |st.players|
            && r == empty.(sessions := r.sessions, players := r.players, tokens := r.tokens, nextPlayer := r.nextPlayer)
  {
    hide Configured, DogsArePlayers, TokensArePlayers, OneSessionPerMap, KeptSessions, HomedAll, SeatedAll, TokenedAll,
        Restorable;
    SessionsBack(cfg, st, saved, |saved|);
    AllTablesBack(st, saved);
  }
}
