/** A run that ends with a token whose dog is gone, so that a move request with it throws. */
module StrandedToken {
  import opened Dogs
  import opened Sessions
  import opened Servers
  import opened SaveRestore
  import opened TokenLookup
  import opened Street
  import opened ReusedPlayerId

  const GOES := Retiree(1, Record("Ada", 0, 1000))

  function Resting(): TickChoice { Waiting(map[1 := [0]], [GOES]) }

  // A second in which Ada's dog stands still; the removal comes to the first of its two tokens.
  const ADA_RETIRES := Tick(1000, [Resting()], map["b" := 0], [])

  lemma AdaExpires(s: SessionState)
    requires AdaRestored(s)
    ensures LegalRetirees(s, 1000, 1000, [GOES]) && Expires(1000, Survivor(Idle("Ada", 500)), 1000)
  {
    StandsStill(s.dogs[1], 1000);
    assert [GOES][0].id == 1;
    assert Listed([GOES], 1, 1);
  }

  lemma RestingIsLegal(s: SessionState)
    requires AdaRestored(s)
    ensures LegalTick(s, 1000, 1000, Resting()) && LegalDraw(s, Resting())
  {
    hide LegalRetirees, Gathered, MovedIn;
    AdaExpires(s);
    WaitingTicks(s, 1000, 1000, map[1 := [0]], [GOES]);
  }

  lemma OneTokenGoes(st: ServerState)
    requires st.tokens == map["b" := ADA, "c" := ADA]
    ensures LegalDrop(st.tokens, [Resting()], map["b" := 0])
  {
    var ts := [Resting()];
    assert ts[0].retirees[0].id == 1;
    assert Listed(ts[0].retirees, 1, 1);
    forall i: nat, id: nat | Removes(ts, i, id) ensures Scans(st.tokens, map["b" := 0], i, id) {
      assert i == 0 && id == 1;
      assert "b" in st.tokens && st.tokens["b"].id == id && map["b" := 0]["b"] == i;
    }
  }

  lemma AdaRetiresLegally(st: ServerState)
    requires st.tokens == map["b" := ADA, "c" := ADA] && st.backupTime == 0
    requires |st.sessions| == 1 && AdaRestored(st.sessions[0])
    ensures Legal(Town(1000), st, ADA_RETIRES)
  {
    hide LegalTick, LegalDraw, LegalDrop, AdaRestored;
    RestingIsLegal(st.sessions[0]);
    OneTokenGoes(st);
  }

  lemma Stranded(st: ServerState)
    requires st.tokens == map["b" := ADA, "c" := ADA] && Legal(Town(1000), st, ADA_RETIRES)
    requires |st.sessions| == 1 && AdaRestored(st.sessions[0])
    ensures var next := Step(Town(1000), st, ADA_RETIRES);
            && "c" in next.tokens && next.tokens["c"] == ADA && !Finds(next, "c")
            && |next.sessions| == 1 && next.sessions[0].world.id == "street" && 1 !in next.sessions[0].dogs
  {
    hide Legal, Ticked, LegalTick, LegalDraw, Expires;
    var next := Step(Town(1000), st, ADA_RETIRES);
    AdaExpires(st.sessions[0]);
    TickStep(Town(1000), st, ADA_RETIRES, 0);
    TickFrame(st.sessions[0], 1000, Resting());
    TickedDog(st.sessions[0], 1000, 1000, Resting(), 1);
    FindSessionIsFirst(next.sessions, "street", 1);
    TokensKept(st);
  }

  lemma TokensKept(st: ServerState)
    requires Legal(Town(1000), st, ADA_RETIRES)
    ensures Step(Town(1000), st, ADA_RETIRES).tokens == map t | t in st.tokens && t != "b" :: st.tokens[t]
  {
    hide LegalSessions, LegalDrop, Ticked, RetiresIn, AllRecords, IsBackup;
  }

  // Rex and Ada join, Rex retires, the server is restarted, Bob joins and gets Ada's id and a token for her
  // player; then Ada's dog retires, and the second token is left without it.
  lemma TokenOutlivesDog() returns (r: Run)
    ensures GoodConfig(Town(1000)) && IsRun(Town(1000), r) && r.states[0] == Fresh(Town(1000)) && |r.states| == 9
    ensures var st := r.states[8];
            && "c" in st.tokens && !Finds(st, "c") && !AllFind(st)
            && |st.sessions| == 1 && st.sessions[0].world.id == st.tokens["c"].mapId
            && st.tokens["c"].id !in st.sessions[0].dogs
  {
    hide Legal, Step, AdaRestored, IsRun, Fresh;
    var begun := PlayerIdTwice();
    var st := begun.states[7];
    AdaRetiresLegally(st);
    Stranded(st);
    var next := Step(Town(1000), st, ADA_RETIRES);
    LastState(begun, st);
    RunExtends(Town(1000), begun, st, ADA_RETIRES, next);
    r := Extended(begun, ADA_RETIRES, next);
    LastState(r, next);
  }

  lemma LastState(r: Run, st: ServerState)
    requires IsRun(Town(1000), r) && r.states[0] == Fresh(Town(1000)) && |r.states| > 0 &&
        r.states[|r.states| - 1] == st
    ensures EndsIn(Town(1000), r, st) && |r.actions| == |r.states| - 1
  {
    hide Fresh, Town;
  }
}
