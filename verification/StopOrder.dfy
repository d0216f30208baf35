/** When the stop point of a blocked move depends on the order in which the index lists the roads. */
module StopOrder {
  import opened Wrappers
  import opened Roads
  import opened Movement

  // Where road r alone would stop the move.
  function Pull(r: Road, m: Vec): Vec { Visit(r, m, None).at }

  // That is where the way to m leaves the road's rectangle: up to there, and no further, a point of the
  // way is on the road.
  lemma PullIsExit(r: Road, p: Vec, m: Vec, q: Vec)
    requires AxisMove(p, m) && BoxOf(r).Has(p) && !BoxOf(r).Has(m) && OnWay(p, q, m)
    ensures BoxOf(r).Has(Pull(r, m)) && OnWay(p, Pull(r, m), m)
    ensures BoxOf(r).Has(q) <==> OnWay(p, q, Pull(r, m))
  {
    SpanIsLongAxis(r, p);
    SpanIsLongAxis(r, m);
    SpanIsLongAxis(r, q);
    SpanIsLongAxis(r, Pull(r, m));
  }

  // Road r replaces whatever the loop had found before it.
  predicate Overrides(r: Road, m: Vec) {
    r.IsHorizontal() || m.y < SpanOf(r).first || m.y > SpanOf(r).second
  }

  ghost predicate Under(roads: seq<Road>, p: Vec, i: nat) { i < |roads| && BoxOf(roads[i]).Has(p) }

  ghost predicate Blocked(roads: seq<Road>, p: Vec, m: Vec) {
    forall i: nat :: Under(roads, p, i) ==> !BoxOf(roads[i]).Has(m)
  }

  ghost predicate OrderFree(roads: seq<Road>, p: Vec, m: Vec) {
    forall o1, o2 :: IsQuery(roads, p, o1) && IsQuery(roads, p, o2) ==>
      Resolve(roads, o1, m, None) == Resolve(roads, o2, m, None)
  }

  // The roads that can decide the stop: the overriding ones, or all of them when there are none.
  ghost predicate Decides(roads: seq<Road>, p: Vec, m: Vec, i: nat) {
    && Under(roads, p, i)
    && (Overrides(roads[i], m) || forall j: nat :: Under(roads, p, j) ==> !Overrides(roads[j], m))
  }

  function LastOverride(roads: seq<Road>, order: seq<nat>, m: Vec): (k: int)
    requires InRange(roads, order)
    ensures -1 <= k < |order|
    ensures k >= 0 ==> Overrides(roads[order[k]], m)
    ensures forall j :: k < j < |order| ==> !Overrides(roads[order[j]], m)
  {
    if order == [] then -1
    else
      var k := LastOverride(roads, order[..|order| - 1], m);
      if Overrides(roads[order[|order| - 1]], m) then |order| - 1 else k
  }

  lemma {:induction false} ResolveAppend(roads: seq<Road>, order: seq<nat>, i: nat, m: Vec, acc: Option<Verdict>)
    requires InRange(roads, order + [i]) && (acc.Some? ==> !acc.value.free)
    requires InRange(roads, order) && !Accepted(roads, order, m)
    ensures i < |roads|
    ensures Resolve(roads, order + [i], m, acc) == Some(Visit(roads[i], m, Resolve(roads, order, m, acc)))
  {
    assert i == (order + [i])[|order|];
    assert forall k :: 0 <= k < |order| ==> order[k] == (order + [i])[k];
    if order != [] {
      var v := Visit(roads[order[0]], m, acc);
      assert (order + [i])[1..] == order[1..] + [i];
      assert !v.free;
      ResolveAppend(roads, order[1..], i, m, Some(v));
    }
  }

  lemma VisitBlocked(r: Road, m: Vec, acc: Option<Verdict>)
    requires !BoxOf(r).Has(m)
    ensures Visit(r, m, acc) ==
            if Overrides(r, m) || acc.None? then Verdict(false, Pull(r, m)) else acc.value
  {
  }

  // Without an accepting road the last overriding road decides, else the first road does.
  lemma {:induction false} ResolveDecided(roads: seq<Road>, order: seq<nat>, m: Vec)
    requires InRange(roads, order) && order != [] && !Accepted(roads, order, m)
    ensures var k := LastOverride(roads, order, m);
            Resolve(roads, order, m, None) ==
              Some(Verdict(false, Pull(roads[order[if k >= 0 then k else 0]], m)))
  {
    var init, i := order[..|order| - 1], order[|order| - 1];
    assert order == init + [i];
    assert !Accepted(roads, init, m) by {
      assert forall k :: 0 <= k < |init| ==> init[k] == order[k];
    }
    ResolveAppend(roads, init, i, m, None);
    VisitBlocked(roads[i], m, Resolve(roads, init, m, None));
    if init != [] {
      ResolveDecided(roads, init, m);
      assert init[0] == order[0];
    }
  }

  function Without(order: seq<nat>, i: nat): (r: seq<nat>)
    ensures forall x: nat :: x in r <==> x in order && x != i
    ensures Distinct(order) ==> Distinct(r)
  {
    if order == [] then [] else
      var l := |order| - 1;
      var r := Without(order[..l], i);
      assert order == order[..l] + [order[l]];
      assert forall a :: 0 <= a < |r| ==> r[a] in r;
      r + if order[l] == i then [] else [order[l]]
  }

  lemma QueryWith(roads: seq<Road>, p: Vec, i: nat) returns (first: seq<nat>, last: seq<nat>)
    requires Under(roads, p, i)
    ensures IsQuery(roads, p, first) && first != [] && first[0] == i
    ensures IsQuery(roads, p, last) && last != [] && last[|last| - 1] == i
  {
    ScanIsQuery(roads, p);
    var all := Scan(roads, p, |roads|);
    first, last := MoveToEnds(all, i);
    Reordered(roads, p, all, first);
    Reordered(roads, p, all, last);
  }

  lemma MoveToEnds(all: seq<nat>, i: nat) returns (first: seq<nat>, last: seq<nat>)
    requires i in all && Distinct(all)
    ensures first != [] && first[0] == i && last != [] && last[|last| - 1] == i
    ensures Distinct(first)
    ensures Distinct(last)
    ensures forall x: nat :: (x in first <==> x in all) && (x in last <==> x in all)
  {
    var rest := Without(all, i);
    first, last := [i] + rest, rest + [i];
    assert forall k :: 0 <= k < |rest| ==> rest[k] in rest;
  }

  lemma Reordered(roads: seq<Road>, p: Vec, order: seq<nat>, other: seq<nat>)
    requires IsQuery(roads, p, order)
    requires Distinct(other)
    requires forall x: nat :: x in other <==> x in order
    ensures IsQuery(roads, p, other)
  {
    forall k | 0 <= k < |other| ensures other[k] < |roads| && BoxOf(roads[other[k]]).Has(p) {
      assert other[k] in order;
    }
  }

  lemma NotAccepted(roads: seq<Road>, p: Vec, m: Vec, order: seq<nat>)
    requires Blocked(roads, p, m) && IsQuery(roads, p, order)
    ensures !Accepted(roads, order, m)
  {
    assert forall k :: 0 <= k < |order| ==> Under(roads, p, order[k]);
  }

  // In every order some deciding road decides.
  lemma StopIsDecided(roads: seq<Road>, p: Vec, m: Vec, order: seq<nat>) returns (i: nat)
    requires Blocked(roads, p, m) && IsQuery(roads, p, order) && OnRoad(roads, p)
    ensures Decides(roads, p, m, i)
    ensures Resolve(roads, order, m, None) == Some(Verdict(false, Pull(roads[i], m)))
  {
    NotAccepted(roads, p, m, order);
    var w: nat :| w < |roads| && BoxOf(roads[w]).Has(p);
    assert w in order;
    ResolveDecided(roads, order, m);
    var k := LastOverride(roads, order, m);
    i := order[if k >= 0 then k else 0];
    if k < 0 {
      forall j: nat | Under(roads, p, j) ensures !Overrides(roads[j], m) {
        assert j in order;
      }
    }
  }

  // Every deciding road decides in some order.
  lemma DeciderHasOrder(roads: seq<Road>, p: Vec, m: Vec, i: nat) returns (order: seq<nat>)
    requires Blocked(roads, p, m) && Decides(roads, p, m, i)
    ensures IsQuery(roads, p, order)
    ensures Resolve(roads, order, m, None) == Some(Verdict(false, Pull(roads[i], m)))
  {
    var first, last := QueryWith(roads, p, i);
    order := if Overrides(roads[i], m) then last else first;
    NotAccepted(roads, p, m, order);
    ResolveDecided(roads, order, m);
    assert forall k :: 0 <= k < |order| ==> Under(roads, p, order[k]);
  }

  // The last point on the way from p to m that is on road r.
  ghost predicate Exit(r: Road, p: Vec, m: Vec, at: Vec) {
    && BoxOf(r).Has(at) && OnWay(p, at, m)
    && forall q :: BoxOf(r).Has(q) && OnWay(p, q, m) ==> OnWay(p, q, at)
  }

  lemma PullExits(r: Road, p: Vec, m: Vec)
    requires AxisMove(p, m) && BoxOf(r).Has(p) && !BoxOf(r).Has(m)
    ensures Exit(r, p, m, Pull(r, m))
  {
    hide BoxOf, Pull, OnWay;
    PullIsExit(r, p, m, p) by { StaysOnWay(p, m); }
    forall q | BoxOf(r).Has(q) && OnWay(p, q, m) ensures OnWay(p, q, Pull(r, m)) {
      PullIsExit(r, p, m, q);
    }
  }

  lemma StaysOnWay(p: Vec, m: Vec)
    ensures OnWay(p, p, m)
  {
  }

  lemma OverridesAcross(r: Road, p: Vec, m: Vec)
    requires BoxOf(r).Has(p) && !BoxOf(r).Has(m)
    ensures p.x == m.x ==> Overrides(r, m)
    ensures p.y == m.y ==> (Overrides(r, m) <==> r.IsHorizontal())
  {
    SpanIsLongAxis(r, p);
    SpanIsLongAxis(r, m);
  }

  // Who decides a blocked move, in every visiting order: a vertical one stops where it leaves the road
  // visited last; a horizontal one where it leaves the last horizontal road, or the first road of all if
  // none is horizontal.
  lemma StopRule(roads: seq<Road>, p: Vec, m: Vec, order: seq<nat>) returns (k: nat, at: Vec)
    requires AxisMove(p, m) && Blocked(roads, p, m) && IsQuery(roads, p, order) && OnRoad(roads, p)
    ensures k < |order| && Resolve(roads, order, m, None) == Some(Verdict(false, at))
    ensures Exit(roads[order[k]], p, m, at)
    ensures p.x == m.x ==> k == |order| - 1
    ensures p.y == m.y ==>
        if exists j :: 0 <= j < |order| && roads[order[j]].IsHorizontal()
        then roads[order[k]].IsHorizontal() && forall j :: k < j < |order| ==> !roads[order[j]].IsHorizontal()
        else k == 0
  {
    hide BoxOf, Resolve, Pull, Exit, Overrides;
    var w: nat :| w < |roads| && BoxOf(roads[w]).Has(p);
    assert w in order;
    NotAccepted(roads, p, m, order);
    ResolveDecided(roads, order, m);
    var last := LastOverride(roads, order, m);
    k := if last >= 0 then last else 0;
    at := Pull(roads[order[k]], m);
    assert Under(roads, p, order[k]);
    PullExits(roads[order[k]], p, m);
    forall j | 0 <= j < |order|
      ensures p.x == m.x ==> Overrides(roads[order[j]], m)
      ensures p.y == m.y ==> (Overrides(roads[order[j]], m) <==> roads[order[j]].IsHorizontal())
    {
      assert Under(roads, p, order[j]);
      OverridesAcross(roads[order[j]], p, m);
    }
  }

  // The exact condition, for every blocked move: the order is irrelevant iff the deciding roads agree.
  lemma OrderFreeIffDecidersAgree(roads: seq<Road>, p: Vec, m: Vec)
    requires Blocked(roads, p, m)
    ensures OrderFree(roads, p, m) <==>
            forall i: nat, j: nat :: Decides(roads, p, m, i) && Decides(roads, p, m, j) ==>
                Pull(roads[i], m) == Pull(roads[j], m)
  {
    if OrderFree(roads, p, m) {
      forall i: nat, j: nat | Decides(roads, p, m, i) && Decides(roads, p, m, j)
        ensures Pull(roads[i], m) == Pull(roads[j], m)
      {
        var o1 := DeciderHasOrder(roads, p, m, i);
        var o2 := DeciderHasOrder(roads, p, m, j);
      }
    } else {
      var o1, o2 :| IsQuery(roads, p, o1) && IsQuery(roads, p, o2) &&
                    Resolve(roads, o1, m, None) != Resolve(roads, o2, m, None);
      ResolveExact(roads, p, m, o1);
      ResolveExact(roads, p, m, o2);
      assert OnRoad(roads, p);
      var i := StopIsDecided(roads, p, m, o1);
      var j := StopIsDecided(roads, p, m, o2);
    }
  }

  ghost predicate AgreeOn(roads: seq<Road>, p: Vec, m: Vec, horizontalOnly: bool) {
    forall i: nat, j: nat ::
      && Under(roads, p, i) && Under(roads, p, j)
      && (horizontalOnly ==> roads[i].IsHorizontal() && roads[j].IsHorizontal())
      ==> Pull(roads[i], m) == Pull(roads[j], m)
  }

  // In every order the stop is at least as far as any road under the dog allows.
  ghost predicate AlwaysFarthest(roads: seq<Road>, p: Vec, m: Vec) {
    forall order, i: nat :: IsQuery(roads, p, order) && Under(roads, p, i) ==>
      var r := Resolve(roads, order, m, None);
      r.Some? && OnWay(p, Pull(roads[i], m), r.value.at)
  }

  lemma VerticalPull(r: Road, p: Vec, m: Vec)
    requires p.y == m.y && BoxOf(r).Has(p) && !BoxOf(r).Has(m) && !r.IsHorizontal()
    ensures !Overrides(r, m)
    ensures Pull(r, m) == Vec(r.start.x as real + if m.x < p.x then -HALF_ROAD_WIDTH else HALF_ROAD_WIDTH, m.y)
  {
    SpanIsLongAxis(r, p);
    SpanIsLongAxis(r, m);
  }

  lemma HorizontalPull(r: Road, p: Vec, m: Vec)
    requires p.y == m.y && BoxOf(r).Has(p) && !BoxOf(r).Has(m) && r.IsHorizontal()
    ensures Pull(r, m) == Vec(if m.x < p.x then SpanOf(r).first else SpanOf(r).second, m.y)
  {
    SpanIsLongAxis(r, p);
    SpanIsLongAxis(r, m);
  }

  // A grid line's band that holds t does not reach beyond a span of grid length that holds t.
  lemma BandInSpan(a: int, s: int, e: int, t: real)
    requires a as real - HALF_ROAD_WIDTH <= t <= a as real + HALF_ROAD_WIDTH
    requires s as real - HALF_ROAD_WIDTH <= t <= e as real + HALF_ROAD_WIDTH
    ensures s <= a <= e
  {
  }

  // Vertical roads under one point lie on one grid line, so they stop a horizontal move at one place,
  // and a horizontal road under the point reaches at least that far.
  lemma HorizontalPulls(roads: seq<Road>, p: Vec, m: Vec, i: nat, j: nat)
    requires p.y == m.y && p.x != m.x && Blocked(roads, p, m) && Under(roads, p, i) && Under(roads, p, j)
    ensures !roads[i].IsHorizontal() ==> !Overrides(roads[i], m)
    ensures !roads[i].IsHorizontal() && !roads[j].IsHorizontal() ==> Pull(roads[i], m) == Pull(roads[j], m)
    ensures roads[j].IsHorizontal() && !roads[i].IsHorizontal() ==> OnWay(p, Pull(roads[i], m), Pull(roads[j], m))
  {
    var ri, rj := roads[i], roads[j];
    if !ri.IsHorizontal() {
      VerticalPull(ri, p, m);
      SpanIsLongAxis(ri, p);
      SpanIsLongAxis(rj, p);
      if rj.IsHorizontal() {
        HorizontalPull(rj, p, m);
        var s, e := if rj.start.x <= rj.End().x then rj.start.x else rj.End().x,
                    if rj.start.x <= rj.End().x then rj.End().x else rj.start.x;
        BandInSpan(ri.start.x, s, e, p.x);
        SpanIsLongAxis(ri, m);
      } else {
        VerticalPull(rj, p, m);
        SameLine(ri.start.x, rj.start.x, p.x);
      }
    }
  }

  // If every order stops at the farthest place, the roads that can decide agree on it.
  lemma FarthestAgree(roads: seq<Road>, p: Vec, m: Vec)
    requires AxisMove(p, m) && Blocked(roads, p, m) && AlwaysFarthest(roads, p, m)
    ensures forall i: nat, j: nat :: Decides(roads, p, m, i) && Decides(roads, p, m, j) ==>
        Pull(roads[i], m) == Pull(roads[j], m)
  {
    forall i: nat, j: nat | Decides(roads, p, m, i) && Decides(roads, p, m, j)
      ensures Pull(roads[i], m) == Pull(roads[j], m)
    {
      var o1 := DeciderHasOrder(roads, p, m, i);
      var o2 := DeciderHasOrder(roads, p, m, j);
      assert OnWay(p, Pull(roads[i], m), Pull(roads[j], m));
      assert OnWay(p, Pull(roads[j], m), Pull(roads[i], m));
    }
  }

  lemma HorizontalPullsAll(roads: seq<Road>, p: Vec, m: Vec)
    requires p.y == m.y && p.x != m.x && Blocked(roads, p, m)
    ensures forall i: nat, j: nat :: Under(roads, p, i) && Under(roads, p, j) ==>
              && (!roads[i].IsHorizontal() ==> !Overrides(roads[i], m))
              && (!roads[i].IsHorizontal() && !roads[j].IsHorizontal() ==> Pull(roads[i], m) == Pull(roads[j], m))
              && (roads[j].IsHorizontal() && !roads[i].IsHorizontal() ==>
                  OnWay(p, Pull(roads[i], m), Pull(roads[j], m)))
  {
    forall i: nat, j: nat | Under(roads, p, i) && Under(roads, p, j)
      ensures !roads[i].IsHorizontal() ==> !Overrides(roads[i], m)
      ensures !roads[i].IsHorizontal() && !roads[j].IsHorizontal() ==> Pull(roads[i], m) == Pull(roads[j], m)
      ensures roads[j].IsHorizontal() && !roads[i].IsHorizontal() ==> OnWay(p, Pull(roads[i], m), Pull(roads[j], m))
    {
      HorizontalPulls(roads, p, m, i, j);
    }
  }

  lemma HorizontalFarthest(roads: seq<Road>, p: Vec, m: Vec, order: seq<nat>, i: nat)
    requires p.y == m.y && p.x != m.x && Blocked(roads, p, m) && AgreeOn(roads, p, m, true)
    requires IsQuery(roads, p, order) && Under(roads, p, i)
    ensures var r := Resolve(roads, order, m, None); r.Some? && OnWay(p, Pull(roads[i], m), r.value.at)
  {
    var d := StopIsDecided(roads, p, m, order);
    HorizontalPulls(roads, p, m, i, d);
    HorizontalPulls(roads, p, m, d, i);
    FoldSafe(roads, p, m, order, None);
  }

  // A blocked horizontal move: order-free, and always farthest, exactly when the horizontal roads
  // under the dog stop it at one place; one horizontal road, or none, is such a case.
  lemma HorizontalStop(roads: seq<Road>, p: Vec, m: Vec)
    requires p.y == m.y && p.x != m.x && Blocked(roads, p, m) && OnRoad(roads, p)
    ensures OrderFree(roads, p, m) <==> AgreeOn(roads, p, m, true)
    ensures AlwaysFarthest(roads, p, m) <==> AgreeOn(roads, p, m, true)
    ensures (forall i: nat, j: nat ::
        Under(roads, p, i) && Under(roads, p, j) && roads[i].IsHorizontal() && roads[j].IsHorizontal() ==> i == j)
            ==> AgreeOn(roads, p, m, true)
  {
    OrderFreeIffDecidersAgree(roads, p, m);
    HorizontalPullsAll(roads, p, m);
    if AgreeOn(roads, p, m, true) {
      forall order, i: nat | IsQuery(roads, p, order) && Under(roads, p, i)
        ensures var r := Resolve(roads, order, m, None); r.Some? && OnWay(p, Pull(roads[i], m), r.value.at)
      {
        HorizontalFarthest(roads, p, m, order, i);
      }
    }
    if AlwaysFarthest(roads, p, m) {
      FarthestAgree(roads, p, m);
    }
  }

  // A blocked vertical move has no such preference: it is order-free, and always farthest, exactly
  // when all the roads under the dog stop it at one place.
  lemma VerticalStop(roads: seq<Road>, p: Vec, m: Vec)
    requires p.x == m.x && p.y != m.y && Blocked(roads, p, m) && OnRoad(roads, p)
    ensures OrderFree(roads, p, m) <==> AgreeOn(roads, p, m, false)
    ensures AlwaysFarthest(roads, p, m) <==> AgreeOn(roads, p, m, false)
  {
    OrderFreeIffDecidersAgree(roads, p, m);
    forall i: nat | Under(roads, p, i) ensures Overrides(roads[i], m) && Decides(roads, p, m, i) {
      SpanIsLongAxis(roads[i], p);
      SpanIsLongAxis(roads[i], m);
    }
    if AgreeOn(roads, p, m, false) {
      forall order, i: nat | IsQuery(roads, p, order) && Under(roads, p, i)
        ensures var r := Resolve(roads, order, m, None); r.Some? && OnWay(p, Pull(roads[i], m), r.value.at)
      {
        var d := StopIsDecided(roads, p, m, order);
      }
    }
    if AlwaysFarthest(roads, p, m) {
      FarthestAgree(roads, p, m);
    }
  }

  // At this crossing a vertical move stops at the crossing road's edge in one order and at the end of
  // its own road in the other.
  lemma CrossingDependsOnOrder()
    ensures var roads := [Horizontal(Cell(0, 0), 10), Vertical(Cell(5, -2), 10)];
            var p, m := Vec(5.0, 0.0), Vec(5.0, -5.0);
            && IsQuery(roads, p, [0, 1]) && IsQuery(roads, p, [1, 0])
            && Resolve(roads, [0, 1], m, None) == Some(Verdict(false, Vec(5.0, -2.4)))
            && Resolve(roads, [1, 0], m, None) == Some(Verdict(false, Vec(5.0, -0.4)))
  {
    var roads := [Horizontal(Cell(0, 0), 10), Vertical(Cell(5, -2), 10)];
    var m := Vec(5.0, -5.0);
    assert [0, 1][1..] == [1] && [1, 0][1..] == [0];
    var a, b := Verdict(false, Vec(5.0, -0.4)), Verdict(false, Vec(5.0, -2.4));
    assert Visit(roads[0], m, None) == a && Visit(roads[1], m, Some(a)) == b;
    assert Visit(roads[1], m, None) == b && Visit(roads[0], m, Some(b)) == a;
    assert Resolve(roads, [1], m, Some(a)) == Some(b) && Resolve(roads, [0], m, Some(b)) == Some(a);
    assert forall i: nat :: i < 2 ==> i in [0, 1] && i in [1, 0];
  }
}
