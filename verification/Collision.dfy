/** Swept collision test: a gatherer moves from a to b past an item at c. */
module Collision {
  import opened Reals
  import opened Roads
  import Movement

  datatype CollectionResult = CollectionResult(sqDistance: real, projRatio: real) {
    predicate IsCollected(radius: real) {
      projRatio >= 0.0 && projRatio <= 1.0 && sqDistance <= radius * radius
    }
  }

  function Minus(p: Vec, q: Vec): Vec { Vec(p.x - q.x, p.y - q.y) }

  function Dot(u: Vec, v: Vec): real { u.x * v.x + u.y * v.y }

  function SqLen(u: Vec): real { Dot(u, u) }

  lemma SqLenSign(u: Vec)
    ensures SqLen(u) >= 0.0
    ensures u.x != 0.0 || u.y != 0.0 ==> SqLen(u) > 0.0
  {
    var p, q := u.x * u.x, u.y * u.y;
    ProductSign(u.x, u.x, p);
    ProductSign(u.y, u.y, q);
    assert SqLen(u) == p + q;
  }

  lemma Apart(a: Vec, b: Vec)
    requires a != b
    ensures Minus(b, a).x != 0.0 || Minus(b, a).y != 0.0
  {
  }

  lemma OffsetPositive(a: Vec, b: Vec)
    requires a != b
    ensures SqLen(Minus(b, a)) > 0.0
  {
    Apart(a, b);
    SqLenSign(Minus(b, a));
  }

  // The result in terms of |u|^2, u.v and |v|^2, for the item's and the move's offsets u and v.
  function Project(uLen2: real, uDotV: real, vLen2: real): CollectionResult
    requires vLen2 != 0.0
  {
    CollectionResult(uLen2 - (uDotV * uDotV) / vLen2, uDotV / vLen2)
  }

  function TryCollectPoint(a: Vec, b: Vec, c: Vec): CollectionResult
    requires a != b
  {
    var u, v := Minus(c, a), Minus(b, a);
    assert SqLen(v) != 0.0 by { OffsetPositive(a, b); }
    Project(SqLen(u), Dot(u, v), SqLen(v))
  }

  // The squared distance to the item from the point reached at fraction s of the move.
  function SqDistAt(a: Vec, b: Vec, c: Vec, s: real): real { SqLen(Minus(c, Lerp(a, b, s))) }

  // |u - s v|^2 = |u|^2 - 2 s u.v + s^2 |v|^2
  lemma Expand(a: Vec, b: Vec, c: Vec, s: real)
    ensures var u, v := Minus(c, a), Minus(b, a);
            SqDistAt(a, b, c, s) == SqLen(u) - 2.0 * s * Dot(u, v) + s * s * SqLen(v)
  {
    var u, v := Minus(c, a), Minus(b, a);
    ExpandAxis(u.x, v.x, s);
    ExpandAxis(u.y, v.y, s);
    assert Minus(c, Lerp(a, b, s)) == Vec(u.x - s * v.x, u.y - s * v.y);
    assert s * (u.x * v.x) + s * (u.y * v.y) == s * Dot(u, v);
    assert s * s * (v.x * v.x) + s * s * (v.y * v.y) == s * s * SqLen(v);
  }

  lemma ExpandAxis(u: real, v: real, s: real)
    ensures (u - s * v) * (u - s * v) == u * u - 2.0 * (s * (u * v)) + s * s * (v * v)
  {
  }

  // How much the squared distance at fraction s exceeds the reported one: (s - fraction)^2 |b - a|^2.
  function Excess(a: Vec, b: Vec, c: Vec, s: real): real
    requires a != b
  {
    var e := s - TryCollectPoint(a, b, c).projRatio;
    e * e * SqLen(Minus(b, a))
  }

  lemma ExcessSign(a: Vec, b: Vec, c: Vec, s: real)
    requires a != b
    ensures Excess(a, b, c, s) >= 0.0
    ensures s == TryCollectPoint(a, b, c).projRatio ==> Excess(a, b, c, s) == 0.0
  {
    assert SqLen(Minus(b, a)) > 0.0 by { OffsetPositive(a, b); }
    Penalty(s - TryCollectPoint(a, b, c).projRatio, SqLen(Minus(b, a)), Excess(a, b, c, s));
  }

  lemma Penalty(e: real, l: real, p: real)
    requires l >= 0.0 && p == e * e * l
    ensures p >= 0.0
    ensures e == 0.0 ==> p == 0.0
  {
    var q := e * e;
    ProductSign(e, e, q);
    ProductSign(q, l, q * l);
  }

  lemma CompleteSquare(u2: real, d: real, l: real, s: real, dist: real)
    requires l > 0.0 && dist == u2 - 2.0 * s * d + s * s * l
    ensures var r := Project(u2, d, l); dist == r.sqDistance + (s - r.projRatio) * (s - r.projRatio) * l
  {
    var k := d / l;
    assert k * l == d;
    assert (d * d) / l == k * d by {
      DivideProduct(d, d, l);
    }
    assert (s - k) * (s - k) * l == s * s * l - 2.0 * s * (k * l) + k * (k * l);
  }

  lemma DivideProduct(x: real, y: real, l: real)
    requires l > 0.0
    ensures (x * y) / l == (x / l) * y
  {
    var k := x / l;
    assert x == k * l;
    assert x * y == (k * y) * l;
  }

  lemma ExactAt(a: Vec, b: Vec, c: Vec, s: real)
    requires a != b
    ensures SqDistAt(a, b, c, s) == TryCollectPoint(a, b, c).sqDistance + Excess(a, b, c, s)
  {
    var u, v := Minus(c, a), Minus(b, a);
    assert SqLen(v) > 0.0 by { OffsetPositive(a, b); }
    Expand(a, b, c, s);
    CompleteSquare(SqLen(u), Dot(u, v), SqLen(v), s, SqDistAt(a, b, c, s));
    assert TryCollectPoint(a, b, c) == Project(SqLen(u), Dot(u, v), SqLen(v));
  }

  // The collision test is exact: the reported distance is the one at the reported fraction, and at
  // any other fraction the squared distance exceeds it by Excess, so it is the least over the line.
  lemma TryCollectExact(a: Vec, b: Vec, c: Vec, s: real)
    requires a != b
    ensures var r := TryCollectPoint(a, b, c);
            && SqDistAt(a, b, c, s) == r.sqDistance + Excess(a, b, c, s)
            && r.sqDistance == SqDistAt(a, b, c, r.projRatio)
            && 0.0 <= r.sqDistance <= SqDistAt(a, b, c, s)
  {
    var r := TryCollectPoint(a, b, c);
    assert SqDistAt(a, b, c, r.projRatio) >= 0.0 by { SqLenSign(Minus(c, Lerp(a, b, r.projRatio))); }
    assert SqDistAt(a, b, c, r.projRatio) == r.sqDistance by {
      ExactAt(a, b, c, r.projRatio);
      ExcessSign(a, b, c, r.projRatio);
    }
    ExactAt(a, b, c, s);
    ExcessSign(a, b, c, s);
  }

  // ---------- What being collected means ----------

  // The move meets the item head-on at fraction s: the item is straight off to the side, within reach.
  predicate MeetsAt(a: Vec, b: Vec, c: Vec, radius: real, s: real) {
    && 0.0 <= s <= 1.0
    && Dot(Minus(c, Lerp(a, b, s)), Minus(b, a)) == 0.0
    && SqDistAt(a, b, c, s) <= radius * radius
  }

  lemma FootAxis(u: real, v: real, s: real)
    ensures (u - s * v) * v == u * v - s * (v * v)
  {
  }

  lemma Distribute(s: real, x: real, y: real)
    ensures s * x + s * y == s * (x + y)
  {
  }

  // How far along the move the item's perpendicular foot still is, times |v|^2.
  lemma Residue(a: Vec, b: Vec, c: Vec, s: real)
    ensures var u, v := Minus(c, a), Minus(b, a);
            Dot(Minus(c, Lerp(a, b, s)), v) == Dot(u, v) - s * SqLen(v)
  {
    var u, v := Minus(c, a), Minus(b, a);
    FootAxis(u.x, v.x, s);
    FootAxis(u.y, v.y, s);
    Distribute(s, v.x * v.x, v.y * v.y);
    assert Minus(c, Lerp(a, b, s)) == Vec(u.x - s * v.x, u.y - s * v.y);
  }

  lemma RatioIff(d: real, l: real, s: real)
    requires l > 0.0
    ensures d - s * l == 0.0 <==> s == d / l
  {
    var k := d / l;
    assert d == k * l;
    assert d - s * l == (k - s) * l;
  }

  lemma Foot(a: Vec, b: Vec, c: Vec, s: real)
    requires a != b
    ensures Dot(Minus(c, Lerp(a, b, s)), Minus(b, a)) == 0.0 <==> s == TryCollectPoint(a, b, c).projRatio
  {
    Residue(a, b, c, s);
    OffsetPositive(a, b);
    RatioIff(Dot(Minus(c, a), Minus(b, a)), SqLen(Minus(b, a)), s);
  }

  lemma CollectedIffMet(a: Vec, b: Vec, c: Vec, radius: real)
    requires a != b
    ensures TryCollectPoint(a, b, c).IsCollected(radius) <==> exists s :: MeetsAt(a, b, c, radius, s)
  {
    var k := TryCollectPoint(a, b, c).projRatio;
    Foot(a, b, c, k);
    TryCollectExact(a, b, c, k);
    if s :| MeetsAt(a, b, c, radius, s) {
      Foot(a, b, c, s);
    }
    if TryCollectPoint(a, b, c).IsCollected(radius) {
      assert MeetsAt(a, b, c, radius, k);
    }
  }

  // Being within reach of the swept segment is necessary, and it suffices exactly when the item is
  // not ahead of the end or behind the start.
  lemma CollectedIffReachable(a: Vec, b: Vec, c: Vec, radius: real)
    requires a != b
    ensures var r := TryCollectPoint(a, b, c);
            r.IsCollected(radius) <==>
              && 0.0 <= r.projRatio <= 1.0
              && exists s :: 0.0 <= s <= 1.0 && SqDistAt(a, b, c, s) <= radius * radius
  {
    var r := TryCollectPoint(a, b, c);
    TryCollectExact(a, b, c, r.projRatio);
    if s :| 0.0 <= s <= 1.0 && SqDistAt(a, b, c, s) <= radius * radius {
      TryCollectExact(a, b, c, s);
    }
  }

  // A thing on the grid just beyond the end of the move is within reach of it and is not collected.
  lemma OvershootNotCollected()
    ensures var a, b, c := Vec(0.0, 0.0), Vec(0.9, 0.0), Vec(1.0, 0.0);
            SqDistAt(a, b, c, 1.0) <= 0.3 * 0.3 && !TryCollectPoint(a, b, c).IsCollected(0.3)
  {
    hide TryCollectPoint, SqDistAt;
    CloseToEnd();
    ProjectsBeyond();
  }

  lemma CloseToEnd()
    ensures SqDistAt(Vec(0.0, 0.0), Vec(0.9, 0.0), Vec(1.0, 0.0), 1.0) == 0.01
  {
    hide SqLen, Lerp, Minus;
    EndOfMove();
    TenthAway();
  }

  lemma EndOfMove()
    ensures Lerp(Vec(0.0, 0.0), Vec(0.9, 0.0), 1.0) == Vec(0.9, 0.0)
  {
  }

  lemma TenthAway()
    ensures SqLen(Minus(Vec(1.0, 0.0), Vec(0.9, 0.0))) == 0.01
  {
    assert Minus(Vec(1.0, 0.0), Vec(0.9, 0.0)) == Vec(0.1, 0.0);
  }

  lemma ProjectsBeyond()
    ensures TryCollectPoint(Vec(0.0, 0.0), Vec(0.9, 0.0), Vec(1.0, 0.0)).projRatio > 1.0
  {
    var u, v := Vec(1.0, 0.0), Vec(0.9, 0.0);
    assert SqLen(u) == 1.0 && Dot(u, v) == 0.9 && SqLen(v) == 0.81;
    assert Project(1.0, 0.9, 0.81).projRatio == 0.9 / 0.81;
  }

  // ---------- Cutting a move in two ----------

  function Scale(k: real, v: Vec): Vec { Vec(k * v.x, k * v.y) }

  lemma DotScaled(w: Vec, v: Vec, k: real)
    requires k > 0.0
    ensures Dot(w, Scale(k, v)) == 0.0 <==> Dot(w, v) == 0.0
  {
    var x, y := w.x * v.x, w.y * v.y;
    assert w.x * (k * v.x) == k * x && w.y * (k * v.y) == k * y;
    Distribute(k, x, y);
    ZeroScaled(x + y, k);
  }

  lemma ZeroScaled(d: real, k: real)
    requires k > 0.0
    ensures k * d == 0.0 <==> d == 0.0
  {
  }

  lemma ComposeFirst(a: Vec, b: Vec, t: real, s: real)
    ensures Lerp(a, Lerp(a, b, t), s) == Lerp(a, b, s * t)
    ensures Minus(Lerp(a, b, t), a) == Scale(t, Minus(b, a))
  {
    ScaleTwice(s, t, b.x - a.x);
    ScaleTwice(s, t, b.y - a.y);
  }

  lemma ScaleTwice(s: real, t: real, d: real)
    ensures s * (t * d) == (s * t) * d
  {
  }

  lemma ComposeSecond(a: Vec, b: Vec, t: real, s: real)
    ensures Lerp(Lerp(a, b, t), b, s) == Lerp(a, b, t + s * (1.0 - t))
    ensures Minus(b, Lerp(a, b, t)) == Scale(1.0 - t, Minus(b, a))
  {
    ComposeAxis(a.x, b.x - a.x, t, s);
    ComposeAxis(a.y, b.y - a.y, t, s);
  }

  lemma ComposeAxis(a: real, d: real, t: real, s: real)
    ensures (a + t * d) + s * (a + d - (a + t * d)) == a + (t + s * (1.0 - t)) * d
    ensures a + d - (a + t * d) == (1.0 - t) * d
  {
  }

  // Meeting an item at fraction q of the first part of a move cut at t.
  lemma MeetsOnFirst(a: Vec, b: Vec, c: Vec, radius: real, t: real, q: real, s: real)
    requires 0.0 < t < 1.0 && 0.0 <= q <= 1.0 && s == q * t
    ensures MeetsAt(a, Lerp(a, b, t), c, radius, q) <==> MeetsAt(a, b, c, radius, s)
  {
    ComposeFirst(a, b, t, q);
    Movement.ScaledDown(q, t);
    DotScaled(Minus(c, Lerp(a, b, s)), Minus(b, a), t);
  }

  // Meeting an item at fraction q of the second part of a move cut at t.
  lemma MeetsOnSecond(a: Vec, b: Vec, c: Vec, radius: real, t: real, q: real, s: real)
    requires 0.0 < t < 1.0 && 0.0 <= q <= 1.0 && s == t + q * (1.0 - t)
    ensures MeetsAt(Lerp(a, b, t), b, c, radius, q) <==> MeetsAt(a, b, c, radius, s)
  {
    ComposeSecond(a, b, t, q);
    Movement.ScaledDown(q, 1.0 - t);
    DotScaled(Minus(c, Lerp(a, b, s)), Minus(b, a), 1.0 - t);
  }

  lemma InteriorDistinct(a: Vec, b: Vec, t: real)
    requires a != b && 0.0 < t < 1.0
    ensures a != Lerp(a, b, t) && Lerp(a, b, t) != b
  {
    ComposeSecond(a, b, t, 0.0);
    ComposeFirst(a, b, t, 0.0);
    var v := Minus(b, a);
    assert v.x != 0.0 || v.y != 0.0;
    ZeroScaled(v.x, t);
    ZeroScaled(v.y, t);
    ZeroScaled(v.x, 1.0 - t);
    ZeroScaled(v.y, 1.0 - t);
  }

  lemma MetWhole(a: Vec, b: Vec, c: Vec, radius: real, t: real, s: real)
    requires 0.0 < t < 1.0 && MeetsAt(a, b, c, radius, s)
    ensures exists q :: MeetsAt(a, Lerp(a, b, t), c, radius, q) || MeetsAt(Lerp(a, b, t), b, c, radius, q)
  {
    if s <= t {
      var q := Quotient(s, t);
      MeetsOnFirst(a, b, c, radius, t, q, s);
    } else {
      var q := Quotient(s - t, 1.0 - t);
      MeetsOnSecond(a, b, c, radius, t, q, s);
    }
  }

  lemma MetPart(a: Vec, b: Vec, c: Vec, radius: real, t: real, q: real)
    requires 0.0 < t < 1.0 && (MeetsAt(a, Lerp(a, b, t), c, radius, q) || MeetsAt(Lerp(a, b, t), b, c, radius, q))
    ensures exists s :: MeetsAt(a, b, c, radius, s)
  {
    if MeetsAt(a, Lerp(a, b, t), c, radius, q) {
      MeetsOnFirst(a, b, c, radius, t, q, q * t);
    } else {
      MeetsOnSecond(a, b, c, radius, t, q, t + q * (1.0 - t));
    }
  }

  // Cutting a move at any interior point collects exactly the same items.
  lemma SplitCollects(a: Vec, b: Vec, c: Vec, radius: real, t: real)
    requires a != b && 0.0 < t < 1.0
    ensures a != Lerp(a, b, t) && Lerp(a, b, t) != b
    ensures TryCollectPoint(a, b, c).IsCollected(radius) <==>
              || TryCollectPoint(a, Lerp(a, b, t), c).IsCollected(radius)
              || TryCollectPoint(Lerp(a, b, t), b, c).IsCollected(radius)
  {
    InteriorDistinct(a, b, t);
    var m := Lerp(a, b, t);
    var whole := TryCollectPoint(a, b, c).IsCollected(radius);
    var first := TryCollectPoint(a, m, c).IsCollected(radius);
    var second := TryCollectPoint(m, b, c).IsCollected(radius);
    assert whole <==> exists s :: MeetsAt(a, b, c, radius, s) by { CollectedIffMet(a, b, c, radius); }
    assert first <==> exists s :: MeetsAt(a, m, c, radius, s) by { CollectedIffMet(a, m, c, radius); }
    assert second <==> exists s :: MeetsAt(m, b, c, radius, s) by { CollectedIffMet(m, b, c, radius); }
    if whole {
      var s :| MeetsAt(a, b, c, radius, s);
      MetWhole(a, b, c, radius, t, s);
    }
    if first || second {
      var s :| MeetsAt(a, m, c, radius, s) || MeetsAt(m, b, c, radius, s);
      MetPart(a, b, c, radius, t, s);
    }
  }
}
