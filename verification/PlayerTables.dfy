/** The player table and the token table, updated in place. */
module PlayerTables {
  import opened Wrappers
  import opened Sessions
  import opened Servers

  class Players {
    var nextId: nat
    var players: map<nat, Player>

    constructor ()
      ensures nextId == 0 && players == map[]
    {
      nextId, players := 0, map[];
    }

    // emplace: a player whose id is in the table already stays.
    method Add(id: nat, mapId: string) returns (player: Player)
      modifies this`players
      ensures players == Emplace(old(players), id, Player(id, mapId)) && player == players[id]
    {
      players := Emplace(players, id, Player(id, mapId));
      player := players[id];
    }

    method GetNextPlayerId() returns (id: nat)
      modifies this`nextId
      ensures id == old(nextId) && nextId == id + 1
    {
      id := nextId;
      nextId := nextId + 1;
    }

    method RestorePlayerIdIncr()
      modifies this`nextId
      ensures nextId == |players|
    {
      nextId := |players|;
    }

    method RemovePlayerById(id: nat)
      modifies this`players
      ensures players == Erase(old(players), id)
    {
      if id in players {
        players := Erase(players, id);
      } else {
        assert Erase(players, id) == players;
      }
    }
  }

  // One scan for the player's token takes out a token of that player, unless there is none, or the one
  // it comes to first is the empty string.
  ghost predicate Scanned(before: map<string, Player>, after: map<string, Player>, id: nat) {
    || (exists t :: t in before && before[t].id == id && t != "" && after == Erase(before, t))
    || (after == before && "" in before && before[""].id == id)
    || (after == before && forall t :: t in before ==> before[t].id != id)
  }

  class PlayerTokens {
    var tokens: map<string, Player>

    constructor ()
      ensures tokens == map[]
    {
      tokens := map[];
    }

    method FindPlayerByToken(token: string) returns (player: Option<Player>)
      ensures player == if token in tokens then Some(tokens[token]) else None
    {
      if token in tokens {
        return Some(tokens[token]);
      }
      return None;
    }

    method AddPlayer(player: Player, token: string)
      modifies this
      ensures tokens == old(tokens)[token := player]
    {
      tokens := tokens[token := player];
    }

    method RestorePlayerWithToken(token: string, player: Player)
      modifies this
      ensures tokens == old(tokens)[token := player]
    {
      tokens := tokens[token := player];
    }

    method RemoveToken(token: string)
      modifies this
      ensures tokens == Erase(old(tokens), token)
    {
      if token in tokens {
        tokens := Erase(tokens, token);
      } else {
        assert Erase(tokens, token) == tokens;
      }
    }

    // The scan stops at the first token of the player it comes to.
    method RemovePlayer(id: nat)
      modifies this
      ensures Scanned(old(tokens), tokens, id)
    {
      var found := "";
      var order := AnyOrder(tokens.Keys);
      for k := 0 to |order|
        invariant found == "" && tokens == old(tokens)
        invariant forall j :: 0 <= j < k ==> tokens[order[j]].id != id
      {
        if tokens[order[k]].id == id {
          found := order[k];
          break;
        }
      }
      if found != "" {
        RemoveToken(found);
      }
    }
  }

  // With one token per player, and no empty one, the scan takes out exactly that player's token.
  lemma ScanIsExact(before: map<string, Player>, after: map<string, Player>, id: nat)
    requires Scanned(before, after, id) && "" !in before
    requires forall t, u :: t in before && u in before && before[t].id == before[u].id ==> t == u
    ensures after == map t | t in before && before[t].id != id :: before[t]
  {
  }

  // ---------- The tables without the retired ----------

  // One turn of the removal loop: the dog of this id leaves this session.
  datatype Removal = Removal(session: nat, id: nat)

  ghost function Removals(i: nat, rs: seq<Retiree>, n: nat): iset<Removal>
    requires n <= |rs|
  {
    if n == 0 then iset{} else Removals(i, rs, n - 1) + iset{Removal(i, rs[n - 1].id)}
  }

  lemma {:induction false} RemovalListed(i: nat, rs: seq<Retiree>, n: nat, x: Removal)
    requires n <= |rs|
    ensures x in Removals(i, rs, n) <==> x.session == i && Listed(rs, n, x.id)
  {
    if n > 0 {
      RemovalListed(i, rs, n - 1, x);
      assert Listed(rs, n, x.id) <==> Listed(rs, n - 1, x.id) || rs[n - 1].id == x.id;
    }
  }

  // After the removals in gone: which token each of them took out of the table, and what the others found.
  ghost predicate TokensWithout(before: map<string, Player>, tokens: map<string, Player>, gone: iset<Removal>,
      dropped: map<string, nat>) {
    && (forall t :: t in tokens <==> t in before && t !in dropped)
    && (forall t :: t in tokens ==> tokens[t] == before[t])
    && (forall t :: t in dropped ==> t != "" && t in before && Removal(dropped[t], before[t].id) in gone)
    && (forall t, u :: t in dropped && u in dropped && t != u && before[t].id == before[u].id ==>
          dropped[t] != dropped[u])
    && (forall x :: x in gone ==> Scans(before, dropped, x.session, x.id))
  }

  ghost predicate Gone(gone: iset<Removal>, id: nat) { exists i: nat :: Removal(i, id) in gone }

  ghost predicate PlayersWithout(before: map<nat, Player>, players: map<nat, Player>, gone: iset<Removal>) {
    && (forall id: nat :: id in players <==> id in before && !Gone(gone, id))
    && (forall id: nat :: id in players ==> players[id] == before[id])
  }

  ghost predicate TablesWithout(st: ServerState, players: map<nat, Player>, tokens: map<string, Player>,
      gone: iset<Removal>, dropped: map<string, nat>) {
    PlayersWithout(st.players, players, gone) && TokensWithout(st.tokens, tokens, gone, dropped)
  }

  lemma ScansLater(tokens: map<string, Player>, dropped: map<string, nat>, t: string, i: nat, x: Removal)
    requires Scans(tokens, dropped, x.session, x.id) && t !in dropped
    ensures Scans(tokens, dropped[t := i], x.session, x.id)
  {
    if u :| u in dropped && u in tokens && dropped[u] == x.session && tokens[u].id == x.id {
      assert dropped[t := i][u] == x.session;
    }
  }

  lemma TokenDropped(before: map<string, Player>, tokens: map<string, Player>, after: map<string, Player>,
      gone: iset<Removal>, dropped: map<string, nat>, x: Removal, t: string)
    requires TokensWithout(before, tokens, gone, dropped) && x !in gone
    requires t in tokens && tokens[t].id == x.id && t != "" && after == Erase(tokens, t)
    ensures TokensWithout(before, after, gone + iset{x}, dropped[t := x.session])
  {
    hide Scans;
    var more := dropped[t := x.session];
    assert Removal(x.session, x.id) == x;
    forall y | y in gone ensures Scans(before, more, y.session, y.id) {
      ScansLater(before, dropped, t, x.session, y);
    }
    TokenFound(before, more, x, t);
  }

  lemma TokenFound(before: map<string, Player>, dropped: map<string, nat>, x: Removal, t: string)
    requires t in dropped && t in before && dropped[t] == x.session && before[t].id == x.id
    ensures Scans(before, dropped, x.session, x.id)
  {
  }

  lemma NoTokenDropped(before: map<string, Player>, tokens: map<string, Player>, gone: iset<Removal>,
      dropped: map<string, nat>, x: Removal)
    requires TokensWithout(before, tokens, gone, dropped)
    requires ("" in tokens && tokens[""].id == x.id) || forall t :: t in tokens ==> tokens[t].id != x.id
    ensures TokensWithout(before, tokens, gone + iset{x}, dropped)
  {
    assert Scans(before, dropped, x.session, x.id) by {
      if forall t :: t in tokens ==> tokens[t].id != x.id {
        assert forall t :: t in before && before[t].id == x.id ==> t !in tokens;
      }
    }
  }

  lemma ScannedTokens(before: map<string, Player>, tokens: map<string, Player>, after: map<string, Player>,
      gone: iset<Removal>, dropped: map<string, nat>, x: Removal)
    returns (more: map<string, nat>)
    requires TokensWithout(before, tokens, gone, dropped) && x !in gone && Scanned(tokens, after, x.id)
    ensures TokensWithout(before, after, gone + iset{x}, more)
  {
    hide TokensWithout;
    if t :| t in tokens && tokens[t].id == x.id && t != "" && after == Erase(tokens, t) {
      more := dropped[t := x.session];
      TokenDropped(before, tokens, after, gone, dropped, x, t);
    } else {
      more := dropped;
      NoTokenDropped(before, tokens, gone, dropped, x);
    }
  }

  lemma PlayerGone(before: map<nat, Player>, players: map<nat, Player>, gone: iset<Removal>, x: Removal)
    requires PlayersWithout(before, players, gone)
    ensures PlayersWithout(before, Erase(players, x.id), gone + iset{x})
  {
    forall id: nat ensures Gone(gone + iset{x}, id) <==> Gone(gone, id) || id == x.id {
      assert Removal(x.session, x.id) in gone + iset{x};
      if Gone(gone, id) {
        var i: nat :| Removal(i, id) in gone;
        assert Removal(i, id) in gone + iset{x};
      }
    }
  }

  lemma OneMoreGone(st: ServerState, players: map<nat, Player>, tokens: map<string, Player>,
      after: map<string, Player>, gone: iset<Removal>, dropped: map<string, nat>, x: Removal)
    returns (more: map<string, nat>)
    requires TablesWithout(st, players, tokens, gone, dropped) && x !in gone && Scanned(tokens, after, x.id)
    ensures TablesWithout(st, Erase(players, x.id), after, gone + iset{x}, more)
  {
    hide TokensWithout, Scanned, PlayersWithout;
    more := ScannedTokens(st.tokens, tokens, after, gone, dropped, x);
    PlayerGone(st.players, players, gone, x);
  }
}
