/** A run in which a thing lies on the ground when the server saves, and nowhere after the restart. */
module LostGround {
  import opened Wrappers
  import opened Dogs
  import opened Sessions
  import opened Servers
  import opened SaveRestore
  import opened Street
  import opened ReusedPlayerId

  const RETIRED := Retiree(0, Record("Rex", 0, 1000))

  // While Rex stands still for a second a thing is drawn, and then he retires.
  function Idling(): TickChoice { Waits(1.0, [Thing(5.0)], [0], map[0 := [0]], [RETIRED]) }

  const IDLES := Tick(1000, [Idling()], map["a" := 0], [])

  lemma IdlingDraws()
    ensures LootGenerated(Alone(), 1000, Idling().drawn).loots == map[0 := Thing(5.0)]
    ensures LegalDraw(Alone(), Idling()) && LegalLoot(Map(), Thing(5.0))
  {
    hide LegalLoot;
    ThingIsLegal(5);
    OneIsDrawn(Alone(), Idling());
    assert AllPlaced(Waited(Alone(), 1000, Idling().drawn), Idling().drawn, 0) == Waited(Alone(), 1000, Idling().drawn);
  }

  lemma RexExpires()
    ensures Still(Newcomer("Rex"), 1000) && Expires(1000, Newcomer("Rex"), 1000)
    ensures LegalRetirees(Alone(), 1000, 1000, [RETIRED])
  {
    StandsStill(Newcomer("Rex"), 1000);
    assert [RETIRED][0].id == 0;
    assert Listed([RETIRED], 1, 0);
  }

  lemma RoutesAreLegal()
    ensures LegalRoutes(Alone(), Idling().routes)
  {
    StreetRoutes(Alone(), Idling().routes);
  }

  lemma IdlingIsLegal()
    ensures LegalTick(Alone(), 1000, 1000, Idling()) && LegalDraw(Alone(), Idling())
  {
    hide LegalLoot, LegalRoutes, LegalRetirees, LootGenerated;
    IdlingDraws();
    RexExpires();
    RoutesAreLegal();
    WaitingIsLegal(Alone(), 1000, 1000, Idling());
  }

  // After the tick the thing is on the ground, and nobody there.
  lemma IdlingLeaves(s: SessionState, c: TickChoice, t: SessionState)
    requires s == Alone() && c == Idling() && LegalRoutes(s, c.routes) && t == Ticked(s, 1000, c)
    ensures t.dogs == map[] && t.loots == map[0 := Thing(5.0)] && t.world == Map()
  {
    hide LegalTick, LegalDraw, LootGenerated, AllRemoved, Advanced, Expires;
    IdlingIsLegal();
    IdlingDraws();
    RexExpires();
    RemovedFrame(Gathered(s, 1000, c), c.retirees, 1);
    assert AfterEvents(MovedIn(s, 1000, c), [], 0) == MovedIn(s, 1000, c);
    forall id: nat ensures id !in t.dogs {
      TickedDog(s, 1000, 1000, c, id);
    }
  }

  lemma IdlesIsLegal()
    ensures Legal(Town(1000), RexJoined(), IDLES)
  {
    hide LegalTick, LegalDraw;
    IdlingIsLegal();
    RexIsDropped();
  }

  lemma RexIsDropped()
    ensures LegalDrop(RexJoined().tokens, [Idling()], map["a" := 0])
  {
    var ts, tokens := [Idling()], RexJoined().tokens;
    assert ts[0].retirees[0].id == 0;
    assert Listed(ts[0].retirees, 1, 0);
    forall i: nat, id: nat | Removes(ts, i, id) ensures Scans(tokens, map["a" := 0], i, id) {
      assert i == 0 && id == 0;
      assert "a" in tokens && tokens["a"].id == id && map["a" := 0]["a"] == i;
    }
  }

  function Nobody(): seq<SaveSession> { [SaveSession([], map[], map[], "street")] }

  const SAVES := Save(Nobody())

  lemma NobodyIsSaved(st: ServerState)
    requires |st.sessions| == 1 && st.sessions[0].world == Map() && st.sessions[0].dogs == map[] && st.tokens == map[]
    ensures IsBackup(st, Nobody()) && Legal(Town(1000), st, SAVES)
    ensures IsBackup(Step(Town(1000), st, SAVES), Nobody()) && Step(Town(1000), st, SAVES).sessions == st.sessions
    ensures Step(Town(1000), st, SAVES).disk == Some(Nobody())
  {
    assert IsSessionBackup(st.sessions[0], st.tokens, Nobody()[0]);
  }

  lemma NobodyRestored(st: ServerState)
    requires st.disk == Some(Nobody())
    ensures Legal(Town(1000), st, Restart) && Step(Town(1000), st, Restart).sessions == []
  {
    var cfg := Town(1000);
    assert HomedAll(cfg, [], Nobody(), 0) == [];
    HomedNone([], Map(), Nobody()[0]);
    assert HomedAll(cfg, [], Nobody(), 1) == [];
  }

  lemma NoTokens()
    requires Legal(Town(1000), RexJoined(), IDLES)
    ensures Step(Town(1000), RexJoined(), IDLES).tokens == map[]
  {
    hide LegalDrop, LegalSessions, Ticked;
  }

  // Rex joins; in the tick in which he retires a thing is drawn; the server saves and restarts. The thing was
  // on the ground when the server saved, and there is no session on its map afterwards.
  lemma ThingLostAtRestart() returns (r: Run)
    ensures GoodConfig(Town(1000)) && IsRun(Town(1000), r) && r.states[0] == Fresh(Town(1000)) && |r.states| == 5
    ensures |r.states[3].sessions| == 1 && r.states[3].sessions[0].loots == map[0 := Thing(5.0)]
    ensures r.states[3].disk.Some? && IsBackup(r.states[3], r.states[3].disk.value)
    ensures r.actions[3].Restart? && r.states[4].sessions == []
  {
    hide Legal, Step, RexJoined, Ticked, IsBackup, Follows;
    var cfg := Town(1000);
    IdlesIsLegal();
    RexJoins(1000);
    AfterIdling();
    var left := Step(cfg, RexJoined(), IDLES);
    NobodyIsSaved(left);
    var kept := Step(cfg, left, SAVES);
    NobodyRestored(kept);
    var back := Step(cfg, kept, Restart);
    Ends(cfg, RexJoined(), IDLES);
    Ends(cfg, left, SAVES);
    Ends(cfg, kept, Restart);
    r := Run([Fresh(cfg), RexJoined(), left, kept, back], [Joins("Rex", "a"), IDLES, SAVES, Restart]);
    assert StepsAt(cfg, r, 0) && StepsAt(cfg, r, 1) && StepsAt(cfg, r, 2) && StepsAt(cfg, r, 3);
    TownIsGood(1000);
  }

  lemma AfterIdling()
    requires Legal(Town(1000), RexJoined(), IDLES)
    ensures var left := Step(Town(1000), RexJoined(), IDLES);
            && |left.sessions| == 1 && left.sessions[0].world == Map() && left.sessions[0].dogs == map[]
            && left.sessions[0].loots == map[0 := Thing(5.0)] && left.tokens == map[]
  {
    hide Legal, Step, Ticked, LegalTick, LegalDraw;
    NoTokens();
    TickStep(Town(1000), RexJoined(), IDLES, 0);
    IdlingLeaves(Alone(), Idling(), Step(Town(1000), RexJoined(), IDLES).sessions[0]);
  }
}
