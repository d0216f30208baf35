/** Which ticks can leave a token without its dog: a removal takes one token of the dog out of the table. */
module SecondTokens {
  import opened Wrappers
  import opened Dogs
  import opened Sessions
  import opened Servers
  import opened Agreement
  import opened PlayerTables
  import opened TokenLookup

  // ---------- Counting ----------

  ghost function TokensFor(tokens: map<string, Player>, id: nat): set<string> {
    set t | t in tokens && tokens[t].id == id
  }

  // The sessions that remove a dog of this id in a tick of this length.
  ghost function Removers(cfg: Config, st: ServerState, dt: nat, id: nat): set<nat> {
    set i: nat | i < |st.sessions| && id in st.sessions[i].dogs && Expires(cfg.retirement, st.sessions[i].dogs[id], dt)
  }

  // Every index in js is that of some key in ks.
  lemma {:induction false} ReachedSize(ks: set<string>, m: map<string, nat>, js: set<nat>)
    requires forall i: nat :: i in js ==> exists t :: t in ks && t in m && m[t] == i
    ensures |js| <= |ks|
    decreases |js|
  {
    if js != {} {
      var i: nat :| i in js;
      var t :| t in ks && t in m && m[t] == i;
      forall j: nat | j in js - {i} ensures exists u :: u in ks - {t} && u in m && m[u] == j {
        var u :| u in ks && u in m && m[u] == j;
      }
      ReachedSize(ks - {t}, m, js - {i});
    }
  }

  // The keys in ks have different indexes, all in js.
  lemma {:induction false} SpreadSize(ks: set<string>, m: map<string, nat>, js: set<nat>)
    requires forall t :: t in ks ==> t in m && m[t] in js
    requires forall t, u :: t in ks && u in ks && t != u ==> m[t] != m[u]
    ensures |ks| <= |js|
    decreases |ks|
  {
    if ks != {} {
      var t :| t in ks;
      SpreadSize(ks - {t}, m, js - {m[t]});
    }
  }

  // ---------- Enough removals ----------

  // Each token whose dog is removed is sure to go: its player has no more tokens than there are removals
  // of its id, and the empty token, which no removal takes out, is not one of them.
  ghost predicate EnoughRemovals(cfg: Config, st: ServerState, dt: nat) {
    forall t :: Finds(st, t) && LosesDog(cfg, st, dt, t) ==> Covered(cfg, st, dt, st.tokens[t].id)
  }

  ghost predicate Covered(cfg: Config, st: ServerState, dt: nat, id: nat) {
    && !("" in st.tokens && st.tokens[""].id == id)
    && |TokensFor(st.tokens, id)| <= |Removers(cfg, st, dt, id)|
  }

  lemma CoveredAllGo(cfg: Config, st: ServerState, dt: nat, ts: seq<TickChoice>, dropped: map<string, nat>, t: string)
    requires LegalSessions(cfg, st, dt, ts) && LegalDrop(st.tokens, ts, dropped)
    requires t in st.tokens && Covered(cfg, st, dt, st.tokens[t].id)
    ensures t in dropped
  {
    hide LegalSessions, Removes, Expires;
    var id := st.tokens[t].id;
    assert t in TokensFor(st.tokens, id);
    if t !in dropped {
      var others := TokensFor(st.tokens, id) - {t};
      forall i: nat | i in Removers(cfg, st, dt, id) ensures exists u ::
          u in others && u in dropped && dropped[u] == i {
        ExpiringIsRemoved(cfg, st, dt, ts, i, id);
        assert Scans(st.tokens, dropped, i, id);
        var u :| u in dropped && u in st.tokens && dropped[u] == i && st.tokens[u].id == id;
      }
      ReachedSize(others, dropped, Removers(cfg, st, dt, id));
    }
  }

  // ---------- Keeping a token ----------

  // What the removal loop has done so far without touching the token that is to be kept.
  ghost predicate Keeping(st: ServerState, tokens: map<string, Player>, gone: iset<Removal>,
      dropped: map<string, nat>, keep: string) {
    TokensWithout(st.tokens, tokens, gone, dropped) && keep in tokens
  }

  // If a player's other tokens are all dropped there have been as many removals of its id.
  lemma OthersDropped(cfg: Config, st: ServerState, dt: nat, ts: seq<TickChoice>, tokens: map<string, Player>,
      gone: iset<Removal>, dropped: map<string, nat>, keep: string, x: Removal)
    requires LegalSessions(cfg, st, dt, ts) && Keeping(st, tokens, gone, dropped, keep)
    requires forall y :: y in gone ==> Removes(ts, y.session, y.id)
    requires x !in gone && Removes(ts, x.session, x.id) && x.id == st.tokens[keep].id
    requires forall t :: t in tokens && tokens[t].id == x.id ==> t == keep
    ensures |TokensFor(st.tokens, x.id)| <= |Removers(cfg, st, dt, x.id)|
  {
    hide LegalSessions, Removes, Expires, Scans;
    var others := TokensFor(st.tokens, x.id) - {keep};
    var removers := Removers(cfg, st, dt, x.id);
    assert Removal(x.session, x.id) == x;
    ExpiringInRange(cfg, st, dt, ts, x.session, x.id);
    forall t | t in others ensures t in dropped && dropped[t] in removers - {x.session} {
      assert Removal(dropped[t], x.id) in gone;
      ExpiringInRange(cfg, st, dt, ts, dropped[t], x.id);
    }
    SpreadSize(others, dropped, removers - {x.session});
    assert keep in TokensFor(st.tokens, x.id);
  }

  lemma ExpiringInRange(cfg: Config, st: ServerState, dt: nat, ts: seq<TickChoice>, i: nat, id: nat)
    requires LegalSessions(cfg, st, dt, ts) && Removes(ts, i, id)
    ensures i in Removers(cfg, st, dt, id)
  {
    hide Expires;
    ExpiringIsRemoved(cfg, st, dt, ts, i, id);
  }

  // One more removal whose scan comes to some other token first, or to the empty one.
  lemma KeepOneMore(cfg: Config, st: ServerState, dt: nat, ts: seq<TickChoice>, tokens: map<string, Player>,
      gone: iset<Removal>, dropped: map<string, nat>, keep: string, x: Removal)
    returns (after: map<string, Player>, more: map<string, nat>)
    requires LegalSessions(cfg, st, dt, ts) && Keeping(st, tokens, gone, dropped, keep)
    requires forall y :: y in gone ==> Removes(ts, y.session, y.id)
    requires x !in gone && Removes(ts, x.session, x.id) && !Covered(cfg, st, dt, st.tokens[keep].id)
    ensures Keeping(st, after, gone + iset{x}, more, keep)
  {
    hide LegalSessions, Removes, Scans, Removers;
    if "" in tokens && tokens[""].id == x.id {
      after, more := tokens, dropped;
      NoTokenDropped(st.tokens, tokens, gone, dropped, x);
    } else if t :| t in tokens && tokens[t].id == x.id && t != keep {
      after, more := Erase(tokens, t), dropped[t := x.session];
      TokenDropped(st.tokens, tokens, after, gone, dropped, x, t);
    } else {
      after, more := tokens, dropped;
      if st.tokens[keep].id == x.id {
        OthersDropped(cfg, st, dt, ts, tokens, gone, dropped, keep, x);
      } else {
        NoTokenDropped(st.tokens, tokens, gone, dropped, x);
      }
    }
  }

  // The removals of the first sessions, and of the first retirees of the next one.
  ghost function Before(ts: seq<TickChoice>, n: nat, k: nat): iset<Removal>
    requires n < |ts| && k <= |ts[n].retirees|
  {
    iset x: Removal | (x.session < n && Removes(ts, x.session, x.id)) || (x.session == n &&
        Listed(ts[n].retirees, k, x.id))
  }

  ghost function BeforeAll(ts: seq<TickChoice>, n: nat): iset<Removal>
    requires n <= |ts|
  {
    iset x: Removal | x.session < n && Removes(ts, x.session, x.id)
  }

  lemma BeforeNext(ts: seq<TickChoice>, n: nat, k: nat)
    requires n < |ts| && k < |ts[n].retirees|
    requires forall i, j :: 0 <= i < j < |ts[n].retirees| ==> ts[n].retirees[i].id != ts[n].retirees[j].id
    ensures Before(ts, n, k + 1) == Before(ts, n, k) + iset{Removal(n, ts[n].retirees[k].id)}
    ensures Removal(n, ts[n].retirees[k].id) !in Before(ts, n, k) && Removes(ts, n, ts[n].retirees[k].id)
  {
    var rs := ts[n].retirees;
    forall id: nat ensures Listed(rs, k + 1, id) <==> Listed(rs, k, id) || id == rs[k].id {
    }
  }

  lemma BeforeEnds(ts: seq<TickChoice>, n: nat)
    requires n < |ts|
    ensures Before(ts, n, 0) == BeforeAll(ts, n)
    ensures Before(ts, n, |ts[n].retirees|) == BeforeAll(ts, n + 1)
  {
    hide Listed;
    assert forall id: nat :: !Listed(ts[n].retirees, 0, id) by { NoneListed(ts[n].retirees); }
  }

  lemma NoneListed(rs: seq<Retiree>)
    ensures forall id: nat :: !Listed(rs, 0, id)
  {
  }

  lemma {:induction false} KeepThrough(cfg: Config, st: ServerState, dt: nat, ts: seq<TickChoice>, keep: string, n: nat,
      k: nat)
    returns (tokens: map<string, Player>, dropped: map<string, nat>)
    requires LegalSessions(cfg, st, dt, ts) && keep in st.tokens && !Covered(cfg, st, dt, st.tokens[keep].id)
    requires n < |ts| && k <= |ts[n].retirees|
    ensures Keeping(st, tokens, Before(ts, n, k), dropped, keep)
    decreases n, k
  {
    hide LegalSessions, Keeping, Covered, Before, BeforeAll;
    if k > 0 {
      tokens, dropped := KeepThrough(cfg, st, dt, ts, keep, n, k - 1);
      OnceEach(cfg, st, dt, ts, n);
      BeforeNext(ts, n, k - 1);
      BeforeRemoves(ts, n, k - 1);
      tokens, dropped := KeepOneMore(cfg, st, dt, ts, tokens, Before(ts, n, k - 1), dropped, keep,
                                     Removal(n, ts[n].retirees[k - 1].id));
    } else {
      BeforeEnds(ts, n);
      if n > 0 {
        tokens, dropped := KeepThrough(cfg, st, dt, ts, keep, n - 1, |ts[n - 1].retirees|);
        BeforeEnds(ts, n - 1);
      } else {
        tokens, dropped := st.tokens, map[];
        NothingGone(st, ts, keep);
      }
    }
  }

  lemma OnceEach(cfg: Config, st: ServerState, dt: nat, ts: seq<TickChoice>, n: nat)
    requires LegalSessions(cfg, st, dt, ts) && n < |ts|
    ensures forall i, j :: 0 <= i < j < |ts[n].retirees| ==> ts[n].retirees[i].id != ts[n].retirees[j].id
  {
    assert LegalTick(st.sessions[n], cfg.retirement, dt, ts[n]);
  }

  lemma BeforeRemoves(ts: seq<TickChoice>, n: nat, k: nat)
    requires n < |ts| && k <= |ts[n].retirees|
    ensures forall y :: y in Before(ts, n, k) ==> Removes(ts, y.session, y.id)
  {
  }

  lemma NothingGone(st: ServerState, ts: seq<TickChoice>, keep: string)
    requires keep in st.tokens
    ensures Keeping(st, st.tokens, BeforeAll(ts, 0), map[], keep)
  {
  }

  // An order of the scans in which the token is not dropped.
  lemma KeepsToken(cfg: Config, st: ServerState, dt: nat, ts: seq<TickChoice>, keep: string)
    returns (dropped: map<string, nat>)
    requires LegalSessions(cfg, st, dt, ts) && keep in st.tokens && !Covered(cfg, st, dt, st.tokens[keep].id)
    ensures LegalDrop(st.tokens, ts, dropped) && keep !in dropped
  {
    hide LegalSessions, Covered, Scans, Removes;
    var tokens;
    if |ts| == 0 {
      tokens, dropped := st.tokens, map[];
      NothingGone(st, ts, keep);
    } else {
      tokens, dropped := KeepThrough(cfg, st, dt, ts, keep, |ts| - 1, |ts[|ts| - 1].retirees|);
      BeforeEnds(ts, |ts| - 1);
    }
    IsLegalDrop(st, tokens, ts, dropped);
  }

  lemma IsLegalDrop(st: ServerState, tokens: map<string, Player>, ts: seq<TickChoice>, dropped: map<string, nat>)
    requires TokensWithout(st.tokens, tokens, BeforeAll(ts, |ts|), dropped)
    ensures LegalDrop(st.tokens, ts, dropped)
  {
    hide Scans, Listed;
    assert forall i: nat, id: nat :: Removal(i, id) in BeforeAll(ts, |ts|) <==> Removes(ts, i, id);
  }

  // From a server in which every token leads to a dog: the tick is sure to leave it so, in whatever order
  // the scans go through the token table, if and only if there are enough removals.
  lemma TickFindsIff(cfg: Config, st: ServerState, dt: nat, ts: seq<TickChoice>)
    requires LegalSessions(cfg, st, dt, ts) && AllFind(st)
    ensures (forall dropped: map<string, nat> :: LegalDrop(st.tokens, ts, dropped) ==>
              AllFind(Advance(cfg, st, dt, ts, dropped))) <==> EnoughRemovals(cfg, st, dt)
  {
    hide LegalSessions, LegalDrop, Covered, LosesDog, Advance, HasDog;
    if EnoughRemovals(cfg, st, dt) {
      forall dropped: map<string, nat> | LegalDrop(st.tokens, ts, dropped)
        ensures AllFind(Advance(cfg, st, dt, ts, dropped))
      {
        forall t | Finds(st, t) && LosesDog(cfg, st, dt, t) ensures t in dropped {
          CoveredAllGo(cfg, st, dt, ts, dropped, t);
        }
        TickFinds(cfg, st, dt, ts, dropped);
      }
    } else {
      var t :| Finds(st, t) && LosesDog(cfg, st, dt, t) && !Covered(cfg, st, dt, st.tokens[t].id);
      var dropped := KeepsToken(cfg, st, dt, ts, t);
      TickFinds(cfg, st, dt, ts, dropped);
    }
  }

  // ---------- One dog of each id ----------

  ghost predicate OneDogEach(st: ServerState) {
    forall i, j, id: nat :: Lives(st, i, id) && Lives(st, j, id) ==> i == j
  }

  ghost predicate HasSecond(st: ServerState, t: string)
    requires t in st.tokens
  {
    exists u :: u in st.tokens && u != t && st.tokens[u].id == st.tokens[t].id
  }

  // Where no two sessions have a dog of one id, and there is no empty token, the order does not matter:
  // every token leads to a dog after the tick if and only if no dog that it removes has a second token.
  lemma SecondTokenStays(cfg: Config, st: ServerState, dt: nat, ts: seq<TickChoice>, dropped: map<string, nat>)
    requires LegalSessions(cfg, st, dt, ts) && LegalDrop(st.tokens, ts, dropped) && AllFind(st)
    requires OneDogEach(st) && "" !in st.tokens
    ensures AllFind(Advance(cfg, st, dt, ts, dropped)) <==>
            forall t :: Finds(st, t) && LosesDog(cfg, st, dt, t) ==> !HasSecond(st, t)
  {
    hide LegalSessions, AllFind, Advance, Removes, Expires, FindSession;
    TickFinds(cfg, st, dt, ts, dropped);
    forall t | Finds(st, t) && LosesDog(cfg, st, dt, t)
      ensures HasSecond(st, t) ==> !KeepsNone(cfg, st, dt, dropped)
      ensures !HasSecond(st, t) ==> t in dropped
    {
      var id := st.tokens[t].id;
      var k := FindSession(st.sessions, st.tokens[t].mapId, |st.sessions|).value;
      ExpiringIsRemoved(cfg, st, dt, ts, k, id);
      assert Scans(st.tokens, dropped, k, id);
      if HasSecond(st, t) {
        var u :| u in st.tokens && u != t && st.tokens[u].id == id;
        SecondIsKept(cfg, st, dt, ts, dropped, t, u);
      }
    }
  }

  // One of two tokens of a dog that is removed is kept, and leads to nobody.
  lemma SecondIsKept(cfg: Config, st: ServerState, dt: nat, ts: seq<TickChoice>, dropped: map<string, nat>, t: string,
      u: string)
    requires LegalSessions(cfg, st, dt, ts) && LegalDrop(st.tokens, ts, dropped) && AllFind(st) && OneDogEach(st)
    requires t in st.tokens && u in st.tokens && t != u && st.tokens[t].id == st.tokens[u].id
    requires Finds(st, t) && LosesDog(cfg, st, dt, t)
    ensures !KeepsNone(cfg, st, dt, dropped)
  {
    hide LegalSessions, Removes, Expires, FindSession, Scans;
    var id := st.tokens[t].id;
    var k := FindSession(st.sessions, st.tokens[t].mapId, |st.sessions|).value;
    var j := FindSession(st.sessions, st.tokens[u].mapId, |st.sessions|).value;
    assert Lives(st, k, id) && Lives(st, j, id);
    if t in dropped && u in dropped {
      RemovesIsListed(ts, dropped[t], id);
      RemovesIsListed(ts, dropped[u], id);
      ListedLives(cfg, st, dt, ts, dropped[t], id);
      ListedLives(cfg, st, dt, ts, dropped[u], id);
    }
  }

  lemma RemovesIsListed(ts: seq<TickChoice>, i: nat, id: nat)
    requires Removes(ts, i, id)
    ensures i < |ts| && Listed(ts[i].retirees, |ts[i].retirees|, id)
  {
  }
}
