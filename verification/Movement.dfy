/** The move resolver: a fold over the roads under the dog, in index order. */
module Movement {
  import opened Reals
  import opened Wrappers
  import opened Roads

  datatype Verdict = Verdict(free: bool, at: Vec)

  // One turn of the resolver's loop on road r, given the result so far.
  function Visit(r: Road, m: Vec, acc: Option<Verdict>): Verdict {
    var span := SpanOf(r);
    var minX, maxX := r.start.x as real - HALF_ROAD_WIDTH, r.start.x as real + HALF_ROAD_WIDTH;
    var minY, maxY := r.start.y as real - HALF_ROAD_WIDTH, r.start.y as real + HALF_ROAD_WIDTH;
    if r.IsHorizontal() then
      if m.x < span.first then Verdict(false, Vec(span.first, m.y))
      else if m.x > span.second then Verdict(false, Vec(span.second, m.y))
      else if m.y < minY then Verdict(false, Vec(m.x, minY))
      else if m.y > maxY then Verdict(false, Vec(m.x, maxY))
      else Verdict(true, m)
    else
      if m.y < span.first then Verdict(false, Vec(m.x, span.first))
      else if m.y > span.second then Verdict(false, Vec(m.x, span.second))
      else if m.x < minX then if acc.Some? then acc.value else Verdict(false, Vec(minX, m.y))
      else if m.x > maxX then if acc.Some? then acc.value else Verdict(false, Vec(maxX, m.y))
      else Verdict(true, m)
  }

  // The whole loop: it stops at the first road that accepts the move.
  function Resolve(roads: seq<Road>, order: seq<nat>, m: Vec, acc: Option<Verdict>): Option<Verdict>
    requires InRange(roads, order)
  {
    if order == [] then acc
    else
      var v := Visit(roads[order[0]], m, acc);
      if v.free then Some(v) else Resolve(roads, order[1..], m, Some(v))
  }

  // ---------- Acceptance ----------

  predicate Accepted(roads: seq<Road>, order: seq<nat>, m: Vec)
    requires InRange(roads, order)
  {
    exists k :: 0 <= k < |order| && BoxOf(roads[order[k]]).Has(m)
  }

  lemma {:induction false} FoldAccepts(roads: seq<Road>, order: seq<nat>, m: Vec, acc: Option<Verdict>)
    requires InRange(roads, order)
    requires acc.Some? ==> !acc.value.free
    ensures var r := Resolve(roads, order, m, acc);
            && (r.None? <==> order == [] && acc.None?)
            && (r.Some? && r.value.free <==> Accepted(roads, order, m))
            && (r.Some? && r.value.free ==> r.value.at == m)
  {
    if order != [] {
      var v := Visit(roads[order[0]], m, acc);
      assert v.free <==> BoxOf(roads[order[0]]).Has(m);
      if v.free {
        assert order[0] in order;
      } else {
        FoldAccepts(roads, order[1..], m, Some(v));
      }
    }
  }

  // Some road holds both ends of the move.
  ghost predicate Clear(roads: seq<Road>, p: Vec, m: Vec) {
    exists i: nat :: i < |roads| && BoxOf(roads[i]).Has(p) && BoxOf(roads[i]).Has(m)
  }

  // A move that is not accepted does not reach the point asked for.
  lemma {:induction false} FoldStopsShort(roads: seq<Road>, order: seq<nat>, m: Vec, acc: Option<Verdict>)
    requires InRange(roads, order)
    requires acc.Some? && !acc.value.free ==> acc.value.at != m
    ensures var r := Resolve(roads, order, m, acc); r.Some? && !r.value.free ==> r.value.at != m
  {
    if order != [] {
      FoldStopsShort(roads, order[1..], m, Some(Visit(roads[order[0]], m, acc)));
    }
  }

  // For every visiting order: no answer exactly when the point is off the roads, acceptance exactly
  // when one road holds both endpoints, and an accepted move goes to the requested point.
  lemma ResolveExact(roads: seq<Road>, p: Vec, m: Vec, order: seq<nat>)
    requires IsQuery(roads, p, order)
    ensures var r := Resolve(roads, order, m, None);
            && (r.None? <==> !OnRoad(roads, p))
            && (r.Some? && r.value.free <==> Clear(roads, p, m))
            && (r.Some? ==> (r.value.free <==> r.value.at == m))
  {
    FoldAccepts(roads, order, m, None);
    FoldStopsShort(roads, order, m, None);
    if order != [] {
      assert order[0] in order;
    }
    if i: nat :| i < |roads| && BoxOf(roads[i]).Has(p) && BoxOf(roads[i]).Has(m) {
      assert i in order;
    }
  }

  // ---------- Safety ----------

  predicate AxisMove(p: Vec, m: Vec) { p.x == m.x || p.y == m.y }

  // q lies on the axis-parallel segment from p to m.
  predicate OnWay(p: Vec, q: Vec, m: Vec) { Between(q.x, p.x, m.x) && Between(q.y, p.y, m.y) }

  // One containing road's rectangle holds both p and q, and q does not overshoot m.
  ghost predicate SafeStop(roads: seq<Road>, p: Vec, m: Vec, q: Vec) {
    OnWay(p, q, m) && exists i: nat :: i < |roads| && BoxOf(roads[i]).Has(p) && BoxOf(roads[i]).Has(q)
  }

  lemma {:induction false} FoldSafe(roads: seq<Road>, p: Vec, m: Vec, order: seq<nat>, acc: Option<Verdict>)
    requires AxisMove(p, m)
    requires InRange(roads, order) && forall k :: 0 <= k < |order| ==> BoxOf(roads[order[k]]).Has(p)
    requires acc.Some? ==> SafeStop(roads, p, m, acc.value.at)
    ensures var r := Resolve(roads, order, m, acc); r.Some? ==> SafeStop(roads, p, m, r.value.at)
  {
    if order != [] {
      var i := order[0];
      var v := Visit(roads[i], m, acc);
      if acc.None? || v != acc.value {
        assert BoxOf(roads[i]).Has(p) && BoxOf(roads[i]).Has(v.at);
      }
      FoldSafe(roads, p, m, order[1..], Some(v));
    }
  }

  lemma ScaledDown(s: real, d: real)
    requires 0.0 <= s <= 1.0
    ensures Between(s * d, 0.0, d)
  {
    var size := if d >= 0.0 then d else -d;
    Scaled(size, s);
    assert d < 0.0 ==> s * d == -(s * size);
  }

  lemma LerpBetween(a: real, b: real, s: real)
    requires 0.0 <= s <= 1.0
    ensures Between(a + s * (b - a), a, b)
  {
    var d := b - a;
    Shifted(a, d, s * d) by { ScaledDown(s, d); }
    assert a + d == b;
  }

  lemma Shifted(a: real, d: real, t: real)
    requires Between(t, 0.0, d)
    ensures Between(a + t, a, a + d)
  {
  }

  lemma BoxConvex(b: Box, p: Vec, q: Vec, s: real)
    requires b.Has(p) && b.Has(q) && 0.0 <= s <= 1.0
    ensures b.Has(Lerp(p, q, s))
  {
    LerpBetween(p.x, q.x, s);
    LerpBetween(p.y, q.y, s);
  }

  // One road's rectangle holds the whole way from p to q.
  ghost predicate WayOnRoad(roads: seq<Road>, p: Vec, q: Vec) {
    exists i: nat :: i < |roads| && forall t: real :: 0.0 <= t <= 1.0 ==> BoxOf(roads[i]).Has(Lerp(p, q, t))
  }

  // Movement safety: an axis-parallel move ends no further than requested, and everything it sweeps
  // lies in one road's rectangle, whatever order the index chose.
  lemma ResolveSafe(roads: seq<Road>, p: Vec, m: Vec, order: seq<nat>)
    requires AxisMove(p, m) && IsQuery(roads, p, order)
    ensures var r := Resolve(roads, order, m, None);
            r.Some? ==>
              && OnWay(p, r.value.at, m)
              && exists i: nat :: i < |roads| && BoxOf(roads[i]).Has(p) && BoxOf(roads[i]).Has(r.value.at) &&
                   forall s: real :: 0.0 <= s <= 1.0 ==> BoxOf(roads[i]).Has(Lerp(p, r.value.at, s))
  {
    FoldSafe(roads, p, m, order, None);
    var r := Resolve(roads, order, m, None);
    if r.Some? {
      var i: nat :| i < |roads| && BoxOf(roads[i]).Has(p) && BoxOf(roads[i]).Has(r.value.at);
      forall s: real | 0.0 <= s <= 1.0
        ensures BoxOf(roads[i]).Has(Lerp(p, r.value.at, s))
      {
        BoxConvex(BoxOf(roads[i]), p, r.value.at, s);
      }
    }
  }

  // Axis-parallel moves are needed: this diagonal move is clamped to a point off every road.
  lemma DiagonalLeavesRoad()
    ensures var roads := [Horizontal(Cell(0, 0), 1)];
            var r := Resolve(roads, [0], Vec(-1.0, -1.0), None);
            IsQuery(roads, Vec(0.0, 0.0), [0]) && r.Some? && !OnRoad(roads, r.value.at)
  {
    var roads := [Horizontal(Cell(0, 0), 1)];
    assert Resolve(roads, [0], Vec(-1.0, -1.0), None) == Some(Verdict(false, Vec(-0.4, -1.0)));
    assert 0 in [0];
  }
}
