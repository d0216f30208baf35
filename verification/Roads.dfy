/** Roads on the integer grid and the rectangles the server's road index stores for them. */
module Roads {
  import opened Wrappers

  const HALF_ROAD_WIDTH := 0.4

  datatype Vec = Vec(x: real, y: real)

  datatype Cell = Cell(x: int, y: int) {
    function ToVec(): Vec { Vec(x as real, y as real) }
  }

  // The two constructors of the source's Road: an axis-parallel integer segment.
  datatype Road = Horizontal(start: Cell, endX: int) | Vertical(start: Cell, endY: int) {
    function End(): Cell {
      match this
      case Horizontal(s, e) => Cell(e, s.y)
      case Vertical(s, e) => Cell(s.x, e)
    }

    predicate IsHorizontal() { start.y == End().y }
  }

  datatype Box = Box(lo: Vec, hi: Vec) {
    // Closed containment, as the index's "intersects" query tests it.
    predicate Has(p: Vec) { lo.x <= p.x <= hi.x && lo.y <= p.y <= hi.y }
  }

  datatype Span = Span(first: real, second: real)

  // The corners p1 and p3 that the index builder computes, orientation by orientation.
  function BoxOf(r: Road): Box {
    var x0, y0 := r.start.x as real, r.start.y as real;
    var x1, y1 := r.End().x as real, r.End().y as real;
    var h := HALF_ROAD_WIDTH;
    if r.IsHorizontal() then
      if r.start.x <= r.End().x then Box(Vec(x0 - h, y0 - h), Vec(x1 + h, y1 + h))
      else Box(Vec(x1 - h, y1 - h), Vec(x0 + h, y0 + h))
    else
      if r.start.y <= r.End().y then Box(Vec(x0 - h, y0 - h), Vec(x1 + h, y1 + h))
      else Box(Vec(x1 - h, y1 - h), Vec(x0 + h, y0 + h))
  }

  // The extent along the road that the builder stores beside the box.
  function SpanOf(r: Road): Span {
    var s, e := if r.IsHorizontal() then r.start.x else r.start.y, if r.IsHorizontal() then r.End().x else r.End().y;
    if s <= e then Span(s as real - HALF_ROAD_WIDTH, e as real + HALF_ROAD_WIDTH)
    else Span(e as real - HALF_ROAD_WIDTH, s as real + HALF_ROAD_WIDTH)
  }

  // The point reached at fraction s of the way from a to b.
  function Lerp(a: Vec, b: Vec, s: real): Vec { Vec(a.x + s * (b.x - a.x), a.y + s * (b.y - a.y)) }

  predicate Between(t: real, a: real, b: real) { a <= t <= b || b <= t <= a }

  predicate OnCentreline(r: Road, q: Vec) {
    && Between(q.x, r.start.x as real, r.End().x as real)
    && Between(q.y, r.start.y as real, r.End().y as real)
  }

  predicate Near(p: Vec, q: Vec) { -0.4 <= p.x - q.x <= 0.4 && -0.4 <= p.y - q.y <= 0.4 }

  function Clamp(t: real, a: real, b: real): (c: real)
    ensures Between(c, a, b)
  {
    var lo, hi := if a <= b then a else b, if a <= b then b else a;
    if t < lo then lo else if t > hi then hi else t
  }

  // The stored box is exactly the band of half width 0.4, per axis, around the centreline.
  lemma BoxIsBand(r: Road, p: Vec)
    ensures BoxOf(r).Has(p) <==> exists q :: OnCentreline(r, q) && Near(p, q)
    ensures match r
            case Horizontal(s, x1) => forall q :: OnCentreline(r, q) <==>
                q.y == s.y as real && Between(q.x, s.x as real, x1 as real)
            case Vertical(s, y1) => forall q :: OnCentreline(r, q) <==>
                q.x == s.x as real && Between(q.y, s.y as real, y1 as real)
  {
    if BoxOf(r).Has(p) {
      var q := Vec(Clamp(p.x, r.start.x as real, r.End().x as real), Clamp(p.y, r.start.y as real, r.End().y as real));
      assert OnCentreline(r, q) && Near(p, q);
    }
  }

  // The stored span is the band's extent along the road; across it the band is start +- 0.4.
  lemma SpanIsLongAxis(r: Road, p: Vec)
    ensures BoxOf(r).Has(p) <==>
      var along, across, axis :=
        if r.IsHorizontal() then p.x else p.y,
        if r.IsHorizontal() then p.y else p.x,
        if r.IsHorizontal() then r.start.y else r.start.x;
      && SpanOf(r).first <= along <= SpanOf(r).second
      && axis as real - HALF_ROAD_WIDTH <= across <= axis as real + HALF_ROAD_WIDTH
  {
  }

  // The gap argument: bands around different integers do not meet.
  lemma SameLine(a: int, b: int, t: real)
    requires a as real - HALF_ROAD_WIDTH <= t <= a as real + HALF_ROAD_WIDTH
    requires b as real - HALF_ROAD_WIDTH <= t <= b as real + HALF_ROAD_WIDTH
    ensures a == b
  {
  }

  predicate InRange(roads: seq<Road>, order: seq<nat>) {
    forall k :: 0 <= k < |order| ==> order[k] < |roads|
  }

  // What the index answers for a point: the containing roads, each once, in an order of its choosing.
  ghost predicate IsQuery(roads: seq<Road>, p: Vec, order: seq<nat>) {
    && InRange(roads, order)
    && Distinct(order)
    && (forall k :: 0 <= k < |order| ==> BoxOf(roads[order[k]]).Has(p))
    && (forall i: nat :: i < |roads| && BoxOf(roads[i]).Has(p) ==> i in order)
  }

  ghost predicate OnRoad(roads: seq<Road>, p: Vec) {
    exists i: nat :: i < |roads| && BoxOf(roads[i]).Has(p)
  }

  // A linear scan, the index's specification: the containing roads in list order.
  function Scan(roads: seq<Road>, p: Vec, n: nat): (order: seq<nat>)
    requires n <= |roads|
    ensures forall i: nat :: i in order <==> i < n && BoxOf(roads[i]).Has(p)
    ensures forall k :: 0 <= k < |order| ==> order[k] < n
    ensures forall i, j :: 0 <= i < j < |order| ==> order[i] < order[j]
  {
    if n == 0 then []
    else Scan(roads, p, n - 1) + if BoxOf(roads[n - 1]).Has(p) then [n - 1] else []
  }

  lemma ScanIsQuery(roads: seq<Road>, p: Vec)
    ensures IsQuery(roads, p, Scan(roads, p, |roads|))
  {
  }

  // A grid point of a road's centreline, as the spawn code draws it, is on that road.
  lemma GridPointOnRoad(roads: seq<Road>, i: nat, c: Cell)
    requires i < |roads| && OnCentreline(roads[i], c.ToVec())
    ensures OnRoad(roads, c.ToVec())
  {
    assert BoxOf(roads[i]).Has(c.ToVec());
  }
}
