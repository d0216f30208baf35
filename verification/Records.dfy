/** The records a tick saves: one for every dog that leaves its session in it. */
module Records {
  import opened Dogs
  import opened Sessions
  import opened Servers

  // A dog that was in a session before the tick.
  datatype Leaver = Leaver(session: nat, id: nat)

  function LeaversOf(k: nat, rs: seq<Retiree>, n: nat): seq<Leaver>
    requires n <= |rs|
  {
    if n == 0 then [] else LeaversOf(k, rs, n - 1) + [Leaver(k, rs[n - 1].id)]
  }

  function AllLeavers(ts: seq<TickChoice>, n: nat): seq<Leaver>
    requires n <= |ts|
  {
    if n == 0 then [] else AllLeavers(ts, n - 1) + LeaversOf(n - 1, ts[n - 1].retirees, |ts[n - 1].retirees|)
  }

  lemma {:induction false} LeaversAt(k: nat, rs: seq<Retiree>, n: nat)
    requires n <= |rs|
    ensures |LeaversOf(k, rs, n)| == |RecordsOf(rs, n)| == n
    ensures forall x :: 0 <= x < n ==> LeaversOf(k, rs, n)[x] == Leaver(k, rs[x].id)
    ensures forall x :: 0 <= x < n ==> RecordsOf(rs, n)[x] == rs[x].record
  {
    if n > 0 {
      LeaversAt(k, rs, n - 1);
    }
  }

  // Dog w is a retiree of one of the first n sessions, and this is its record.
  ghost predicate RetiresWith(ts: seq<TickChoice>, n: nat, w: Leaver, record: Record) {
    && w.session < n && w.session < |ts|
    && exists x :: 0 <= x < |ts[w.session].retirees| && ts[w.session].retirees[x] == Retiree(w.id, record)
  }

  ghost predicate DistinctRetirees(ts: seq<TickChoice>) {
    forall k: nat, i, j :: k < |ts| && 0 <= i < j < |ts[k].retirees| ==> ts[k].retirees[i].id != ts[k].retirees[j].id
  }

  lemma {:induction false} RecordsCount(ts: seq<TickChoice>, n: nat)
    requires n <= |ts|
    ensures |AllRecords(ts, n)| == |AllLeavers(ts, n)|
  {
    if n > 0 {
      RecordsCount(ts, n - 1);
      LeaversAt(n - 1, ts[n - 1].retirees, |ts[n - 1].retirees|);
    }
  }

  lemma {:induction false} RecordMatches(ts: seq<TickChoice>, n: nat, i: nat)
    requires n <= |ts| && |AllRecords(ts, n)| == |AllLeavers(ts, n)| && i < |AllLeavers(ts, n)|
    ensures RetiresWith(ts, n, AllLeavers(ts, n)[i], AllRecords(ts, n)[i])
  {
    var rs, m := ts[n - 1].retirees, |AllLeavers(ts, n - 1)|;
    RecordsCount(ts, n - 1);
    if i < m {
      RecordMatches(ts, n - 1, i);
    } else {
      LeaversAt(n - 1, rs, |rs|);
      assert rs[i - m] == Retiree(rs[i - m].id, rs[i - m].record);
    }
  }

  lemma {:induction false} LeaversOnce(ts: seq<TickChoice>, n: nat)
    requires n <= |ts| && DistinctRetirees(ts)
    ensures forall i, j :: 0 <= i < j < |AllLeavers(ts, n)| ==> AllLeavers(ts, n)[i] != AllLeavers(ts, n)[j]
    ensures forall i :: 0 <= i < |AllLeavers(ts, n)| ==> AllLeavers(ts, n)[i].session < n
  {
    if n > 0 {
      LeaversOnce(ts, n - 1);
      LeaversAt(n - 1, ts[n - 1].retirees, |ts[n - 1].retirees|);
    }
  }

  lemma {:induction false} LeaversAll(ts: seq<TickChoice>, n: nat, k: nat, x: nat)
    requires k < n <= |ts| && x < |ts[k].retirees|
    ensures Leaver(k, ts[k].retirees[x].id) in AllLeavers(ts, n)
  {
    if k < n - 1 {
      LeaversAll(ts, n - 1, k, x);
    } else {
      LeaversAt(k, ts[k].retirees, |ts[k].retirees|);
      assert LeaversOf(k, ts[k].retirees, |ts[k].retirees|)[x] == Leaver(k, ts[k].retirees[x].id);
    }
  }

  // The dog is in its session before, and gone after.
  ghost predicate Leaves(before: seq<SessionState>, after: seq<SessionState>, w: Leaver) {
    && w.session < |before| && w.session < |after|
    && w.id in before[w.session].dogs && w.id !in after[w.session].dogs
  }

  // The record of a dog that leaves in a tick of dt milliseconds.
  ghost predicate RecordOn(record: Record, d: DogState, dt: nat) {
    record.name == d.name && record.score == d.score && record.playTime == d.lifeTime + dt
  }

  lemma RetireeLeaves(s: SessionState, retirement: nat, dt: nat, c: TickChoice, x: nat)
    requires LegalTick(s, retirement, dt, c) && x < |c.retirees|
    ensures LegalRoutes(s, c.routes)
    ensures var t := c.retirees[x];
            t.id in s.dogs && t.id !in Ticked(s, dt, c).dogs && RecordOn(t.record, s.dogs[t.id], dt)
  {
    hide LegalSweeps, Expires, Ticked;
    assert RetiresAs(s, retirement, dt, c.retirees[x]);
    TickedDog(s, retirement, dt, c, c.retirees[x].id);
  }

  lemma LeaverRetires(s: SessionState, retirement: nat, dt: nat, c: TickChoice, id: nat) returns (x: nat)
    requires LegalTick(s, retirement, dt, c) && LegalRoutes(s, c.routes) && id in s.dogs && id !in Ticked(s, dt, c).dogs
    ensures x < |c.retirees| && c.retirees[x].id == id
  {
    hide LegalSweeps, Expires, Ticked, RetiresAs;
    TickedDog(s, retirement, dt, c, id);
    assert Listed(c.retirees, |c.retirees|, id);
    x :| 0 <= x < |c.retirees| && c.retirees[x].id == id;
  }

  lemma TicksRetireOnce(cfg: Config, st: ServerState, dt: nat, ts: seq<TickChoice>)
    requires LegalSessions(cfg, st, dt, ts)
    ensures DistinctRetirees(ts)
  {
    hide LegalDraw, LegalRoutes, LegalSweeps, RetiresAs, Expires;
    forall k: nat | k < |ts| ensures LegalRetirees(st.sessions[k], cfg.retirement, dt, ts[k].retirees) {
    }
  }

  // A tick saves exactly one record for every dog that leaves its session in it, behind the older ones: its
  // name, its score before the events of the tick, and its play time.
  lemma OneForEachLeaver(cfg: Config, st: ServerState, a: Action) returns (who: seq<Leaver>)
    requires Legal(cfg, st, a) && a.Tick?
    ensures var r, n := Step(cfg, st, a), |st.records|;
            && |r.records| == n + |who| && r.records[..n] == st.records
            && (forall i :: 0 <= i < |who| ==>
                  && Leaves(st.sessions, r.sessions, who[i])
                  && RecordOn(r.records[n + i], st.sessions[who[i].session].dogs[who[i].id], a.dt))
            && (forall i, j :: 0 <= i < j < |who| ==> who[i] != who[j])
            && (forall w :: Leaves(st.sessions, r.sessions, w) ==> w in who)
  {
    hide Legal, Step, LegalTick, LegalDraw, Ticked, RecordOn, RetiresWith;
    who := AllLeavers(a.ts, |a.ts|);
    RecordsStep(cfg, st, a);
    RecordsCount(a.ts, |a.ts|);
    LeaversOnce(a.ts, |a.ts|);
    var r, n := Step(cfg, st, a), |st.records|;
    forall i | 0 <= i < |who|
      ensures Leaves(st.sessions, r.sessions, who[i])
      ensures RecordOn(r.records[n + i], st.sessions[who[i].session].dogs[who[i].id], a.dt)
    {
      RecordMatches(a.ts, |a.ts|, i);
      RecordIsLeavers(cfg, st, a, who[i], r.records[n + i]);
    }
    forall w | Leaves(st.sessions, r.sessions, w) ensures w in who {
      TickStep(cfg, st, a, w.session);
      var x := LeaverRetires(st.sessions[w.session], cfg.retirement, a.dt, a.ts[w.session], w.id);
      LeaversAll(a.ts, |a.ts|, w.session, x);
    }
  }

  lemma RecordsStep(cfg: Config, st: ServerState, a: Action)
    requires Legal(cfg, st, a) && a.Tick?
    ensures Step(cfg, st, a).records == st.records + AllRecords(a.ts, |a.ts|)
    ensures DistinctRetirees(a.ts) && |a.ts| == |st.sessions|
  {
    hide DistinctRetirees, LegalDrop;
    TicksRetireOnce(cfg, st, a.dt, a.ts);
  }

  lemma RecordIsLeavers(cfg: Config, st: ServerState, a: Action, w: Leaver, record: Record)
    requires Legal(cfg, st, a) && a.Tick? && |a.ts| == |st.sessions| && RetiresWith(a.ts, |a.ts|, w, record)
    ensures Leaves(st.sessions, Step(cfg, st, a).sessions, w)
    ensures RecordOn(record, st.sessions[w.session].dogs[w.id], a.dt)
  {
    hide Legal, Step, LegalTick, LegalDraw, Ticked, RecordOn;
    TickStep(cfg, st, a, w.session);
    var x :| 0 <= x < |a.ts[w.session].retirees| && a.ts[w.session].retirees[x] == Retiree(w.id, record);
    RetireeLeaves(st.sessions[w.session], cfg.retirement, a.dt, a.ts[w.session], x);
  }
}
