/** What a player's requests do to the server: a join seats one dog, a move turns one. */
module Requests {
  import opened Roads
  import opened Movement
  import opened Dogs
  import opened Sessions
  import opened Servers

  // Session i is the first that runs on the map.
  ghost predicate FirstOn(sessions: seq<SessionState>, mapId: string, i: nat) {
    i < |sessions| && sessions[i].world.id == mapId && forall j :: 0 <= j < i ==> sessions[j].world.id != mapId
  }

  // The sessions are what they were, but for dog id of session i, which is there now.
  ghost predicate OnlyDog(before: seq<SessionState>, after: seq<SessionState>, i: nat, id: nat) {
    && i < |before| == |after|
    && (forall k :: 0 <= k < |before| && k != i ==> after[k] == before[k])
    && (var s, r := before[i], after[i];
        && r == s.(dogs := r.dogs)
        && r.dogs.Keys == s.dogs.Keys + {id}
        && forall j: nat :: j in s.dogs && j != id ==> r.dogs[j] == s.dogs[j])
  }

  // ---------- Move requests ----------

  // A turn to the side that the move string names, at full speed; the y axis points south.
  ghost predicate Turns(d: DogState, e: DogState, move: string) {
    && e == d.(direct := e.direct, speed := e.speed)
    && (move == "U" ==> e.direct == NORTH && e.speed == Vec(0.0, -d.defaultSpeed))
    && (move == "D" ==> e.direct == SOUTH && e.speed == Vec(0.0, d.defaultSpeed))
    && (move == "L" ==> e.direct == WEST && e.speed == Vec(-d.defaultSpeed, 0.0))
    && (move == "R" ==> e.direct == EAST && e.speed == Vec(d.defaultSpeed, 0.0))
    && (move == "" ==> e.direct == STOP && e.speed == Vec(0.0, 0.0))
    && (move != "U" && move != "D" && move != "L" && move != "R" && move != "" ==> e == d)
  }

  // The request has turned dog id of session i, and nothing else has changed.
  ghost predicate HasTurned(st: ServerState, r: ServerState, i: nat, id: nat, move: string) {
    && r == st.(sessions := r.sessions)
    && OnlyDog(st.sessions, r.sessions, i, id)
    && id in st.sessions[i].dogs && Turns(st.sessions[i].dogs[id], r.sessions[i].dogs[id], move)
  }

  // The request has turned the dog of this player, and nothing else has changed.
  ghost predicate TurnsDogOf(st: ServerState, r: ServerState, p: Player, move: string) {
    exists i: nat :: FirstOn(st.sessions, p.mapId, i) && HasTurned(st, r, i, p.id, move)
  }

  lemma SteeredTurns(d: DogState, move: string)
    ensures Turns(d, Steered(d, move), move)
  {
  }

  lemma SteeredInTurns(s: SessionState, id: nat, move: string)
    requires id in s.dogs
    ensures OnlyDog([s], [SteeredIn(s, id, move)], 0, id)
    ensures Turns(s.dogs[id], SteeredIn(s, id, move).dogs[id], move)
  {
    hide Turns, Steered;
    SteeredTurns(s.dogs[id], move);
  }

  lemma SteeringTurns(st: ServerState, token: string, move: string)
    requires Finds(st, token)
    ensures TurnsDogOf(st, Steering(st, token, move), st.tokens[token], move)
  {
    hide Turns, SteeredIn, FindSession;
    var p := st.tokens[token];
    FindSessionIsFirst(st.sessions, p.mapId, |st.sessions|);
    var i := FindSession(st.sessions, p.mapId, |st.sessions|).value;
    SteeredInTurns(st.sessions[i], p.id, move);
    assert FirstOn(st.sessions, p.mapId, i) && HasTurned(st, Steering(st, token, move), i, p.id, move);
  }

  // A move request turns the dog of the player behind its token, and changes nothing else. A token that
  // nobody has changes nothing at all.
  lemma RequestTurns(cfg: Config, st: ServerState, token: string, move: string)
    requires Legal(cfg, st, Steer(token, move))
    ensures var r := Step(cfg, st, Steer(token, move));
            if token in st.tokens then TurnsDogOf(st, r, st.tokens[token], move) else r == st
  {
    hide TurnsDogOf;
    if token in st.tokens {
      SteeringTurns(st, token, move);
    }
  }

  lemma TickWalks(s: SessionState, retirement: nat, dt: nat, c: TickChoice, id: nat, d: DogState, move: string)
    requires LegalTick(s, retirement, dt, c) && LegalRoutes(s, c.routes) && id in Ticked(s, dt, c).dogs
    requires id in s.dogs && s.dogs[id] == Steered(d, move) && OnRoad(s.world.roads, d.coord)
    ensures Walks(s.world.roads, d, Ticked(s, dt, c).dogs[id], move, dt)
  {
    hide LegalTick, Ticked, Advanced, Clear, OnRoad, IsQuery;
    TickedDog(s, retirement, dt, c, id);
    SteeredWalks(s.world.roads, d, move, dt, c.routes[id]);
  }

  // The next tick takes the dog to the side that the request named.
  lemma RequestWalks(cfg: Config, st: ServerState, token: string, move: string, tick: Action, i: nat)
    requires Legal(cfg, st, Steer(token, move)) && token in st.tokens && FirstOn(st.sessions, st.tokens[token].mapId, i)
    requires tick.Tick? && Legal(cfg, Step(cfg, st, Steer(token, move)), tick)
    ensures st.tokens[token].id in st.sessions[i].dogs
    ensures var s, id := st.sessions[i], st.tokens[token].id;
            var after := Step(cfg, Step(cfg, st, Steer(token, move)), tick).sessions;
            && i < |after|
            && (OnRoad(s.world.roads, s.dogs[id].coord) && id in after[i].dogs ==>
                  Walks(s.world.roads, s.dogs[id], after[i].dogs[id], move, tick.dt))
  {
    hide Advance, Advanced, Ticked, LegalTick, Walks, Steered, FindSession, OnRoad, LegalDrop, Writes, SaveDue;
    var p, mid := st.tokens[token], Step(cfg, st, Steer(token, move));
    FindSessionIsFirst(st.sessions, p.mapId, |st.sessions|);
    TickStep(cfg, mid, tick, i);
    var d := st.sessions[i].dogs[p.id];
    if OnRoad(st.sessions[i].world.roads, d.coord) && p.id in Ticked(mid.sessions[i], tick.dt, tick.ts[i]).dogs {
      TickWalks(mid.sessions[i], cfg.retirement, tick.dt, tick.ts[i], p.id, d, move);
    }
  }

  // ---------- Joins ----------

  // A dog as it joins: at its spawn point and at rest, with the speed and the bag capacity of its map. The
  // int capacity becomes a size_t.
  ghost predicate Newcomer(m: MapConfig, name: string, spawn: Cell, d: DogState) {
    && d.name == name && d.coord == Vec(spawn.x as real, spawn.y as real)
    && d.speed == Vec(0.0, 0.0) && d.direct == NORTH && d.defaultSpeed == m.speed
    && d.bag == [] && d.score == 0 && d.lifeTime == 0 && d.stopTime == 0
    && (0 <= m.bagCapacity < 0x1_0000_0000_0000_0000 ==> d.maxBagSize == m.bagCapacity)
    && (-0x8000_0000 <= m.bagCapacity < 0 ==> d.maxBagSize == m.bagCapacity + 0x1_0000_0000_0000_0000)
  }

  // Session i, the map's, has the newcomer under this id; it is new if there was none. No other dog has changed.
  ghost predicate SeatedAt(before: seq<SessionState>, after: seq<SessionState>, m: MapConfig, i: nat, id: nat,
      name: string, spawn: Cell)
  {
    && FirstOn(after, m.id, i) && id in after[i].dogs && Newcomer(m, name, spawn, after[i].dogs[id])
    && if i < |before| then OnlyDog(before, after, i, id)
       else
         && after == before + [after[i]] && after[i].world == m && after[i].dogs.Keys == {id}
         && after[i].loots == map[] && after[i].lootIdIncr == 0 && after[i].waiting == 0
  }

  // A player has joined the map under the next id, with this token.
  ghost predicate HasJoined(st: ServerState, r: ServerState, m: MapConfig, name: string, spawn: Cell, token: string) {
    && (exists i: nat :: SeatedAt(st.sessions, r.sessions, m, i, st.nextPlayer, name, spawn))
    && r.nextPlayer == st.nextPlayer + 1
    && r.players == st.players[st.nextPlayer := Player(st.nextPlayer, m.id)]
    && r.tokens == st.tokens[token := Player(st.nextPlayer, m.id)]
    && r == st.(sessions := r.sessions, players := r.players, tokens := r.tokens, nextPlayer := r.nextPlayer)
  }

  // Neither the player table nor the map's session knows the id.
  ghost predicate Unused(st: ServerState, mapId: string, id: nat) {
    && id !in st.players
    && forall i: nat :: FirstOn(st.sessions, mapId, i) ==> id !in st.sessions[i].dogs
  }

  lemma NewDogJoins(m: MapConfig, name: string, spawn: Cell)
    ensures Newcomer(m, name, spawn, NewDog(spawn.ToVec(), m.speed, name, Capacity(m)))
  {
  }

  lemma SeatedNow(sessions: seq<SessionState>, m: MapConfig, id: nat, d: DogState, name: string, spawn: Cell)
    requires Newcomer(m, name, spawn, d)
    requires forall i: nat :: FirstOn(sessions, m.id, i) ==> id !in sessions[i].dogs
    ensures exists i: nat :: SeatedAt(sessions, WithDogAt(sessions, m, id, d), m, i, id, name, spawn)
  {
    hide Newcomer, FindSession;
    FindSessionIsFirst(sessions, m.id, |sessions|);
    var found := FindSession(sessions, m.id, |sessions|);
    var i := if found.Some? then found.value else |sessions|;
    assert found.Some? ==> FirstOn(sessions, m.id, i);
    assert SeatedAt(sessions, WithDogAt(sessions, m, id, d), m, i, id, name, spawn);
  }

  lemma JoinedHasJoined(cfg: Config, st: ServerState, name: string, mapId: string, spawn: Cell, token: string)
    requires mapId in cfg.maps
    ensures Unused(st, cfg.maps[mapId].id, st.nextPlayer) ==>
        HasJoined(st, Joined(cfg, st, name, mapId, spawn, token), cfg.maps[mapId], name, spawn, token)
  {
    hide NewDog, WithDogAt, SeatedAt, Capacity, Newcomer, FirstOn;
    var m := cfg.maps[mapId];
    if Unused(st, m.id, st.nextPlayer) {
      NewDogJoins(m, name, spawn);
      SeatedNow(st.sessions, m, st.nextPlayer, NewDog(spawn.ToVec(), m.speed, name, Capacity(m)), name, spawn);
    }
  }

  // A join under an id not in use seats one new dog in the map's session; an unknown map changes nothing.
  lemma RequestJoins(cfg: Config, st: ServerState, name: string, mapId: string, spawn: Cell, token: string)
    requires Legal(cfg, st, Join(name, mapId, spawn, token))
    ensures var r := Step(cfg, st, Join(name, mapId, spawn, token));
            if mapId !in cfg.maps then r == st
            else Unused(st, cfg.maps[mapId].id, st.nextPlayer) ==>
                HasJoined(st, r, cfg.maps[mapId], name, spawn, token)
    ensures mapId in cfg.maps && !cfg.randomizeSpawn ==>
        |cfg.maps[mapId].roads| > 0 && spawn == cfg.maps[mapId].roads[0].start
  {
    hide HasJoined, Unused;
    if mapId in cfg.maps {
      JoinedHasJoined(cfg, st, name, mapId, spawn, token);
    }
  }
}
