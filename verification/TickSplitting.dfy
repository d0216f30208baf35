/** Cutting the tick of an unobstructed dog in two changes neither the dog nor what it collects. */
module TickSplitting {
  import opened Wrappers
  import opened Reals
  import opened Roads
  import opened Movement
  import opened Collision
  import opened Gather
  import opened Dogs

  predicate Collects(g: Option<Gatherer>, item: Item) { g.Some? && Outcome(g.value, item).Some? }

  // ---------- Cutting a move at a point ----------

  lemma Freely(roads: seq<Road>, id: nat, d: DogState, m: Vec, dt: nat, order: seq<nat>)
    requires Clear(roads, d.coord, m) && IsQuery(roads, d.coord, order) && d.coord != m
    ensures Headed(roads, d, m, dt, order) == d.(lifeTime := d.lifeTime + dt, coord := m, stopTime := 0)
    ensures SweepTo(roads, id, d, m, order) == Some(Gatherer(id, d.coord, m, PLAYER_WIDTH / 2.0))
  {
    ResolveExact(roads, d.coord, m, order);
  }

  lemma CutClear(roads: seq<Road>, p: Vec, m: Vec, q: real)
    requires Clear(roads, p, m) && p != m && 0.0 < q < 1.0
    ensures var c := Lerp(p, m, q); Clear(roads, p, c) && Clear(roads, c, m) && p != c && c != m
  {
    var i: nat :| i < |roads| && BoxOf(roads[i]).Has(p) && BoxOf(roads[i]).Has(m);
    BoxConvex(BoxOf(roads[i]), p, m, q);
    InteriorDistinct(p, m, q);
  }

  lemma CutSweep(id: nat, p: Vec, m: Vec, q: real, item: Item)
    requires p != m && 0.0 < q < 1.0
    ensures var c, w := Lerp(p, m, q), PLAYER_WIDTH / 2.0;
            Outcome(Gatherer(id, p, m, w), item).Some? <==>
              Outcome(Gatherer(id, p, c, w), item).Some? || Outcome(Gatherer(id, c, m, w), item).Some?
  {
    SplitCollects(p, m, item.position, PLAYER_WIDTH / 2.0 + item.width, q);
  }

  // The dog heads for m; cutting its way at an interior point changes nothing.
  lemma MoveSplits(roads: seq<Road>, id: nat, d: DogState, m: Vec, q: real, t1: nat, t2: nat, o1: seq<nat>,
      o2: seq<nat>, whole: seq<nat>, item: Item)
    requires Clear(roads, d.coord, m) && d.coord != m && 0.0 < q < 1.0
    requires IsQuery(roads, d.coord, o1) && IsQuery(roads, d.coord, whole) && IsQuery(roads, Lerp(d.coord, m, q), o2)
    ensures var c := Lerp(d.coord, m, q);
            var e := Headed(roads, d, c, t1, o1);
            && e == d.(lifeTime := d.lifeTime + t1, coord := c, stopTime := 0)
            && Headed(roads, e, m, t2, o2) == Headed(roads, d, m, t1 + t2, whole)
            && (Collects(SweepTo(roads, id, d, m, whole), item) <==>
                  Collects(SweepTo(roads, id, d, c, o1), item) || Collects(SweepTo(roads, id, e, m, o2), item))
  {
    var c := Lerp(d.coord, m, q);
    CutClear(roads, d.coord, m, q);
    Freely(roads, id, d, c, t1, o1);
    Freely(roads, id, d, m, t1 + t2, whole);
    Freely(roads, id, d.(lifeTime := d.lifeTime + t1, coord := c, stopTime := 0), m, t2, o2);
    CutSweep(id, d.coord, m, q, item);
  }

  // ---------- Cutting the time ----------

  lemma AheadMid(x: real, v: real, a: real, b: real, q: real)
    requires q * (a + b) == a
    ensures Ahead(x, v, a) == x + q * (Ahead(x, v, a + b) - x)
    ensures Ahead(Ahead(x, v, a), v, b) == Ahead(x, v, a + b)
  {
    assert v * (q * (a + b)) == q * (v * (a + b));
  }

  lemma Fraction(a: real, b: real) returns (q: real)
    requires a > 0.0 && b > 0.0
    ensures 0.0 < q < 1.0 && q * (a + b) == a
  {
    q := Quotient(a, a + b);
    assert q != 0.0 && q != 1.0;
  }

  // After t1 of t1 + t2 milliseconds the dog is at the fraction q of its way.
  lemma Midway(d: DogState, t1: nat, t2: nat) returns (q: real)
    requires t1 > 0 && t2 > 0
    ensures 0.0 < q < 1.0
    ensures Requested(d, t1) == Lerp(d.coord, Requested(d, t1 + t2), q)
    ensures Requested(d.(coord := Requested(d, t1)), t2) == Requested(d, t1 + t2)
  {
    var a, b := t1 as real, t2 as real;
    q := Fraction(a, b);
    AheadMid(d.coord.x, d.speed.x, a, b, q);
    AheadMid(d.coord.y, d.speed.y, a, b, q);
    assert (t1 + t2) as real == a + b;
  }

  lemma StillAxis(x: real, v: real, a: real)
    requires a > 0.0
    ensures Ahead(x, v, a) == x <==> v == 0.0
  {
  }

  // A dog stands still in a tick if it has no speed, or the tick no length.
  lemma StillIffNoSpeed(d: DogState, dt: nat)
    ensures Still(d, dt) <==> dt == 0 || d.speed == Vec(0.0, 0.0)
  {
    if dt > 0 {
      StillAxis(d.coord.x, d.speed.x, dt as real);
      StillAxis(d.coord.y, d.speed.y, dt as real);
    }
  }

  lemma NoTime(roads: seq<Road>, id: nat, d: DogState, order: seq<nat>)
    requires InRange(roads, order)
    ensures Advanced(roads, d, 0, order) == d && Sweep(roads, id, d, 0, order) == None
  {
    assert Requested(d, 0) == d.coord;
  }

  // Two listings of the roads under an unobstructed dog lead to the same move and the same sweep.
  lemma ClearOrderFree(roads: seq<Road>, id: nat, d: DogState, dt: nat, o1: seq<nat>, o2: seq<nat>)
    requires Clear(roads, d.coord, Requested(d, dt)) && IsQuery(roads, d.coord, o1) && IsQuery(roads, d.coord, o2)
    ensures Advanced(roads, d, dt, o1) == Advanced(roads, d, dt, o2)
    ensures Sweep(roads, id, d, dt, o1) == Sweep(roads, id, d, dt, o2)
  {
    var m := Requested(d, dt);
    if d.coord != m {
      Freely(roads, id, d, m, dt, o1);
      Freely(roads, id, d, m, dt, o2);
    }
  }

  // Whatever orders the index chooses: the dog after two part ticks is the dog after the whole tick,
  // and an item is collected on the whole sweep exactly when it is on one of the two.
  lemma TickSplits(roads: seq<Road>, id: nat, d: DogState, t1: nat, t2: nat, o1: seq<nat>, o2: seq<nat>,
      whole: seq<nat>, item: Item)
    requires Clear(roads, d.coord, Requested(d, t1 + t2))
    requires IsQuery(roads, d.coord, o1) && IsQuery(roads, d.coord, whole)
    requires IsQuery(roads, Advanced(roads, d, t1, o1).coord, o2)
    ensures var e := Advanced(roads, d, t1, o1);
            && Advanced(roads, e, t2, o2) == Advanced(roads, d, t1 + t2, whole)
            && (Collects(Sweep(roads, id, d, t1 + t2, whole), item) <==>
                  Collects(Sweep(roads, id, d, t1, o1), item) || Collects(Sweep(roads, id, e, t2, o2), item))
  {
    if t1 == 0 {
      NoTime(roads, id, d, o1);
      ClearOrderFree(roads, id, d, t2, o2, whole);
    } else if t2 == 0 {
      NoTime(roads, id, Advanced(roads, d, t1, o1), o2);
      ClearOrderFree(roads, id, d, t1, o1, whole);
    } else {
      StillIffNoSpeed(d, t1);
      StillIffNoSpeed(d, t2);
      StillIffNoSpeed(d, t1 + t2);
      if d.speed == ZERO {
        StillIffNoSpeed(Advanced(roads, d, t1, o1), t2);
      } else {
        MovingSplits(roads, id, d, t1, t2, o1, o2, whole, item);
      }
    }
  }

  lemma MovingSplits(roads: seq<Road>, id: nat, d: DogState, t1: nat, t2: nat, o1: seq<nat>, o2: seq<nat>,
      whole: seq<nat>, item: Item)
    requires t1 > 0 && t2 > 0 && !Still(d, t1 + t2) && !Still(d, t1)
    requires Clear(roads, d.coord, Requested(d, t1 + t2))
    requires IsQuery(roads, d.coord, o1) && IsQuery(roads, d.coord, whole)
    requires IsQuery(roads, Advanced(roads, d, t1, o1).coord, o2)
    ensures var e := Advanced(roads, d, t1, o1);
            && Advanced(roads, e, t2, o2) == Advanced(roads, d, t1 + t2, whole)
            && (Collects(Sweep(roads, id, d, t1 + t2, whole), item) <==>
                  Collects(Sweep(roads, id, d, t1, o1), item) || Collects(Sweep(roads, id, e, t2, o2), item))
  {
    var q := Midway(d, t1, t2);
    var c, m := Requested(d, t1), Requested(d, t1 + t2);
    CutClear(roads, d.coord, m, q);
    Freely(roads, id, d, c, t1, o1);
    MoveSplits(roads, id, d, m, q, t1, t2, o1, o2, whole, item);
    var e := Advanced(roads, d, t1, o1);
    assert Requested(e, t2) == Requested(d.(coord := c), t2) == m;
  }
}
