/** The web client's view of the roads: a raster of tiles, filled in place. */
module Raster {
  import opened Roads
  import opened Movement

  datatype Building = Building(x: int, y: int, w: int, h: int)

  datatype Tile = Tile(road: bool, u: bool, r: bool, d: bool, l: bool)

  const BLANK := Tile(false, false, false, false, false)

  // ---------- The extent of a map ----------

  function Least(vs: seq<int>, n: nat): (m: int)
    requires 0 < n <= |vs|
    ensures forall k :: 0 <= k < n ==> m <= vs[k]
    ensures exists k :: 0 <= k < n && m == vs[k]
  {
    if n == 1 then vs[0] else MinOf(Least(vs, n - 1), vs[n - 1])
  }

  function Greatest(vs: seq<int>, n: nat): (m: int)
    requires 0 < n <= |vs|
    ensures forall k :: 0 <= k < n ==> vs[k] <= m
    ensures exists k :: 0 <= k < n && m == vs[k]
  {
    if n == 1 then vs[0] else MaxOf(Greatest(vs, n - 1), vs[n - 1])
  }

  function MinOf(a: int, b: int): int { if a <= b then a else b }

  function MaxOf(a: int, b: int): int { if a <= b then b else a }

  // The coordinates whose least and greatest values bound the raster, for roads and then buildings.
  function LowXs(roads: seq<Road>, bs: seq<Building>): seq<int> {
    seq(|roads|, i requires 0 <= i < |roads| => MinOf(roads[i].start.x, roads[i].End().x))
    + seq(|bs|, i requires 0 <= i < |bs| => bs[i].x)
  }

  function HighXs(roads: seq<Road>, bs: seq<Building>): seq<int> {
    seq(|roads|, i requires 0 <= i < |roads| => MaxOf(roads[i].start.x, roads[i].End().x))
    + seq(|bs|, i requires 0 <= i < |bs| => bs[i].x + bs[i].w)
  }

  function LowYs(roads: seq<Road>, bs: seq<Building>): seq<int> {
    seq(|roads|, i requires 0 <= i < |roads| => MinOf(roads[i].start.y, roads[i].End().y))
    + seq(|bs|, i requires 0 <= i < |bs| => bs[i].y)
  }

  function HighYs(roads: seq<Road>, bs: seq<Building>): seq<int> {
    seq(|roads|, i requires 0 <= i < |roads| => MaxOf(roads[i].start.y, roads[i].End().y))
    + seq(|bs|, i requires 0 <= i < |bs| => bs[i].y + bs[i].h)
  }

  datatype Extent = Extent(xmin: int, xmax: int, ymin: int, ymax: int) {
    predicate Has(c: Cell) { xmin <= c.x <= xmax && ymin <= c.y <= ymax }
  }

  function ExtentOf(roads: seq<Road>, bs: seq<Building>): Extent
    requires |roads| > 0
  {
    var n := |roads| + |bs|;
    Extent(Least(LowXs(roads, bs), n), Greatest(HighXs(roads, bs), n), Least(LowYs(roads, bs), n),
        Greatest(HighYs(roads, bs), n))
  }

  // ---------- The tiles of one road, and of all ----------

  // The first and last value of the coordinate that varies along the road.
  function First(r: Road): int {
    match r
    case Horizontal(s, e) => MinOf(s.x, e)
    case Vertical(s, e) => MinOf(s.y, e)
  }

  function Last(r: Road): int {
    match r
    case Horizontal(s, e) => MaxOf(s.x, e)
    case Vertical(s, e) => MaxOf(s.y, e)
  }

  lemma FirstUpToLast(r: Road)
    ensures First(r) <= Last(r)
  {
  }

  function Along(r: Road, c: Cell): int { if r.Horizontal? then c.x else c.y }

  function CellAt(r: Road, z: int): Cell { if r.Horizontal? then Cell(z, r.start.y) else Cell(r.start.x, z) }

  predicate Marks(r: Road, c: Cell) { c == CellAt(r, Along(r, c)) && First(r) <= Along(r, c) <= Last(r) }

  function Painted(r: Road, c: Cell, t: Tile): Tile {
    if !Marks(r, c) then t
    else
      var back, on := Along(r, c) != First(r), Along(r, c) != Last(r);
      if r.Horizontal? then t.(road := true, l := t.l || back, r := t.r || on)
      else t.(road := true, u := t.u || back, d := t.d || on)
  }

  function TileOf(roads: seq<Road>, n: nat, c: Cell): Tile
    requires n <= |roads|
  {
    if n == 0 then BLANK else Painted(roads[n - 1], c, TileOf(roads, n - 1, c))
  }

  lemma RoadInExtent(roads: seq<Road>, bs: seq<Building>, i: nat, c: Cell)
    requires i < |roads| && Marks(roads[i], c)
    ensures ExtentOf(roads, bs).Has(c)
  {
    hide Least, Greatest;
    assert LowXs(roads, bs)[i] == MinOf(roads[i].start.x, roads[i].End().x);
    assert HighXs(roads, bs)[i] == MaxOf(roads[i].start.x, roads[i].End().x);
    assert LowYs(roads, bs)[i] == MinOf(roads[i].start.y, roads[i].End().y);
    assert HighYs(roads, bs)[i] == MaxOf(roads[i].start.y, roads[i].End().y);
  }

  lemma ExtentIsProper(roads: seq<Road>, bs: seq<Building>)
    requires |roads| > 0
    ensures var e := ExtentOf(roads, bs); e.xmin <= e.xmax && e.ymin <= e.ymax
  {
    var r := roads[0];
    RoadInExtent(roads, bs, 0, CellAt(r, First(r)));
  }

  // Both ends of every road, and every building, are within the extent.
  ghost predicate Holds(e: Extent, roads: seq<Road>, bs: seq<Building>) {
    && (forall i :: 0 <= i < |roads| ==>
          match roads[i]
          case Horizontal(s, x1) => e.Has(s) && e.xmin <= x1 <= e.xmax
          case Vertical(s, y1) => e.Has(s) && e.ymin <= y1 <= e.ymax)
    && (forall k :: 0 <= k < |bs| ==>
          && e.xmin <= bs[k].x && bs[k].x + bs[k].w <= e.xmax
          && e.ymin <= bs[k].y && bs[k].y + bs[k].h <= e.ymax)
  }

  lemma ExtentHolds(roads: seq<Road>, bs: seq<Building>)
    requires |roads| > 0
    ensures Holds(ExtentOf(roads, bs), roads, bs)
  {
    hide Least, Greatest;
    var n := |roads|;
    forall i | 0 <= i < n
      ensures ExtentOf(roads, bs).Has(roads[i].start) && ExtentOf(roads, bs).Has(roads[i].End())
    {
      assert LowXs(roads, bs)[i] == MinOf(roads[i].start.x, roads[i].End().x);
      assert HighXs(roads, bs)[i] == MaxOf(roads[i].start.x, roads[i].End().x);
      assert LowYs(roads, bs)[i] == MinOf(roads[i].start.y, roads[i].End().y);
      assert HighYs(roads, bs)[i] == MaxOf(roads[i].start.y, roads[i].End().y);
    }
    forall k | 0 <= k < |bs| ensures Holds(ExtentOf(roads, bs), [], [bs[k]]) {
      assert LowXs(roads, bs)[n + k] == bs[k].x && HighXs(roads, bs)[n + k] == bs[k].x + bs[k].w;
      assert LowYs(roads, bs)[n + k] == bs[k].y && HighYs(roads, bs)[n + k] == bs[k].y + bs[k].h;
    }
    assert forall k :: 0 <= k < |bs| ==> [bs[k]][0] == bs[k];
  }

  // The raster holds all roads and buildings, and is no larger than any that does.
  lemma ExtentIsLeast(roads: seq<Road>, bs: seq<Building>, f: Extent)
    requires |roads| > 0
    ensures var e := ExtentOf(roads, bs);
            && Holds(e, roads, bs)
            && (Holds(f, roads, bs) ==>
                  f.xmin <= e.xmin && e.xmax <= f.xmax && f.ymin <= e.ymin && e.ymax <= f.ymax)
  {
    hide Least, Greatest;
    ExtentHolds(roads, bs);
    if Holds(f, roads, bs) {
      forall k | 0 <= k < |roads| + |bs|
        ensures f.xmin <= LowXs(roads, bs)[k] && HighXs(roads, bs)[k] <= f.xmax
        ensures f.ymin <= LowYs(roads, bs)[k] && HighYs(roads, bs)[k] <= f.ymax
      {
      }
    }
  }

  // ---------- The in-place algorithm ----------

  class GameMap {
    var tiles: array2<Tile>
    var extent: Extent

    constructor ()
    {
      tiles := new Tile[0, 0];
      extent := Extent(0, -1, 0, -1);
    }

    ghost predicate Sized()
      reads this
    {
      && extent.xmin <= extent.xmax && extent.ymin <= extent.ymax
      && tiles.Length0 == extent.ymax - extent.ymin + 1 && tiles.Length1 == extent.xmax - extent.xmin + 1
    }

    function At(c: Cell): Tile
      requires Sized() && extent.Has(c)
      reads this, tiles
    {
      tiles[c.y - extent.ymin, c.x - extent.xmin]
    }

    // One tile of a road, and its links to the tiles before and after it.
    method PaintTile(r: Road, z: int)
      requires Sized() && First(r) <= z <= Last(r) && extent.Has(CellAt(r, z))
      modifies tiles
      ensures forall c :: extent.Has(c) ==>
                At(c) == if Marks(r, c) && Along(r, c) == z then Painted(r, c, old(At(c))) else old(At(c))
    {
      var x := (if r.Horizontal? then z else r.start.x) - extent.xmin;
      var y := (if r.Horizontal? then r.start.y else z) - extent.ymin;
      tiles[y, x] := tiles[y, x].(road := true);
      if z != First(r) {
        tiles[y, x] := if r.Horizontal? then tiles[y, x].(l := true) else tiles[y, x].(u := true);
      }
      if z != Last(r) {
        tiles[y, x] := if r.Horizontal? then tiles[y, x].(r := true) else tiles[y, x].(d := true);
      }
    }

    // One road: every tile on it is marked, and linked to its neighbours on the road.
    method PaintRoad(r: Road)
      requires Sized() && forall c :: Marks(r, c) ==> extent.Has(c)
      modifies tiles
      ensures forall c :: extent.Has(c) ==> At(c) == Painted(r, c, old(At(c)))
    {
      hide First, Last;
      FirstUpToLast(r);
      var s, e := First(r), Last(r);
      var z := s;
      while z <= e
        invariant s <= z <= e + 1
        invariant forall c :: extent.Has(c) ==>
                    At(c) == if Marks(r, c) && Along(r, c) < z then Painted(r, c, old(At(c))) else old(At(c))
      {
        assert Marks(r, CellAt(r, z));
        PaintTile(r, z);
        z := z + 1;
      }
    }

    // All roads, on a fresh raster that holds every road and building.
    method Load(roads: seq<Road>, bs: seq<Building>)
      requires |roads| > 0
      modifies this
      ensures extent == ExtentOf(roads, bs) && Sized() && fresh(tiles)
      ensures forall c :: extent.Has(c) ==> At(c) == TileOf(roads, |roads|, c)
    {
      hide ExtentOf, Painted, Marks;
      extent := ExtentOf(roads, bs);
      ExtentIsProper(roads, bs);
      tiles := new Tile[extent.ymax - extent.ymin + 1, extent.xmax - extent.xmin + 1]((_, _) => BLANK);
      for i := 0 to |roads|
        invariant extent == ExtentOf(roads, bs) && Sized() && fresh(tiles)
        invariant forall c :: extent.Has(c) ==> At(c) == TileOf(roads, i, c)
      {
        forall c | Marks(roads[i], c) ensures extent.Has(c) {
          RoadInExtent(roads, bs, i, c);
        }
        PaintRoad(roads[i]);
      }
    }
  }

  // ---------- What the tiles mean, and how they agree with the server's roads ----------

  predicate Links(r: Road, c: Cell, d: Cell) {
    Marks(r, c) && Marks(r, d) && Along(r, d) == Along(r, c) + 1
  }

  function RightOf(c: Cell): Cell { Cell(c.x + 1, c.y) }

  function Below(c: Cell): Cell { Cell(c.x, c.y + 1) }

  lemma {:induction false} TileMeans(roads: seq<Road>, n: nat, c: Cell)
    requires n <= |roads|
    ensures var t := TileOf(roads, n, c);
            && (t.road <==> exists i: nat :: i < n && Marks(roads[i], c))
            && (t.r <==> exists i: nat :: i < n && roads[i].Horizontal? && Links(roads[i], c, RightOf(c)))
            && (t.d <==> exists i: nat :: i < n && roads[i].Vertical? && Links(roads[i], c, Below(c)))
  {
    if n > 0 {
      TileMeans(roads, n - 1, c);
    }
  }

  lemma {:induction false} TileMeansBack(roads: seq<Road>, n: nat, c: Cell)
    requires n <= |roads|
    ensures TileOf(roads, n, RightOf(c)).l <==> exists i: nat ::
        i < n && roads[i].Horizontal? && Links(roads[i], c, RightOf(c))
    ensures TileOf(roads, n, Below(c)).u <==> exists i: nat ::
        i < n && roads[i].Vertical? && Links(roads[i], c, Below(c))
  {
    if n > 0 {
      TileMeansBack(roads, n - 1, c);
    }
  }

  // The flags of neighbouring tiles agree.
  lemma NeighboursAgree(roads: seq<Road>, c: Cell)
    ensures TileOf(roads, |roads|, c).r == TileOf(roads, |roads|, RightOf(c)).l
    ensures TileOf(roads, |roads|, c).d == TileOf(roads, |roads|, Below(c)).u
  {
    hide Links, TileOf;
    TileMeans(roads, |roads|, c);
    TileMeansBack(roads, |roads|, c);
  }

  lemma MarkedIsInBox(r: Road, c: Cell)
    ensures Marks(r, c) <==> BoxOf(r).Has(c.ToVec())
  {
  }

  lemma LinkedInBox(r: Road, c: Cell)
    ensures r.Horizontal? && Links(r, c, RightOf(c)) <==> BoxOf(r).Has(c.ToVec()) && BoxOf(r).Has(RightOf(c).ToVec())
    ensures r.Vertical? && Links(r, c, Below(c)) <==> BoxOf(r).Has(c.ToVec()) && BoxOf(r).Has(Below(c).ToVec())
  {
    MarkedIsInBox(r, c);
    MarkedIsInBox(r, RightOf(c));
    MarkedIsInBox(r, Below(c));
  }

  // One of the server's road rectangles covers the whole segment from p to q.
  ghost predicate Covered(roads: seq<Road>, p: Vec, q: Vec) {
    exists i: nat :: i < |roads| && Covers(BoxOf(roads[i]), p, q)
  }

  ghost predicate Covers(b: Box, p: Vec, q: Vec) { forall s: real :: 0.0 <= s <= 1.0 ==> b.Has(Lerp(p, q, s)) }

  lemma CoversIffEnds(b: Box, p: Vec, q: Vec)
    ensures Covers(b, p, q) <==> b.Has(p) && b.Has(q)
  {
    if Covers(b, p, q) {
      assert Lerp(p, q, 0.0) == p && Lerp(p, q, 1.0) == q;
    }
    if b.Has(p) && b.Has(q) {
      forall s: real | 0.0 <= s <= 1.0 ensures b.Has(Lerp(p, q, s)) {
        BoxConvex(b, p, q, s);
      }
    }
  }

  // A tile is a road tile exactly when the server's roads contain its point; it is linked to the tile
  // on its right, or below, exactly when one road covers the unit edge between them.
  lemma RasterAgrees(roads: seq<Road>, c: Cell)
    ensures var t := TileOf(roads, |roads|, c);
            && (t.road <==> OnRoad(roads, c.ToVec()))
            && (t.r <==> Covered(roads, c.ToVec(), RightOf(c).ToVec()))
            && (t.d <==> Covered(roads, c.ToVec(), Below(c).ToVec()))
  {
    hide TileOf, Marks, Links, BoxOf, Covers;
    TileMeans(roads, |roads|, c);
    forall i: nat | i < |roads|
      ensures Marks(roads[i], c) <==> BoxOf(roads[i]).Has(c.ToVec())
      ensures roads[i].Horizontal? && Links(roads[i], c, RightOf(c)) <==>
          Covers(BoxOf(roads[i]), c.ToVec(), RightOf(c).ToVec())
      ensures roads[i].Vertical? && Links(roads[i], c, Below(c)) <==>
          Covers(BoxOf(roads[i]), c.ToVec(), Below(c).ToVec())
    {
      MarkedIsInBox(roads[i], c);
      LinkedInBox(roads[i], c);
      CoversIffEnds(BoxOf(roads[i]), c.ToVec(), RightOf(c).ToVec());
      CoversIffEnds(BoxOf(roads[i]), c.ToVec(), Below(c).ToVec());
    }
  }

  // Off the raster there is no road.
  lemma NoRoadOffRaster(roads: seq<Road>, bs: seq<Building>, c: Cell)
    requires |roads| > 0 && OnRoad(roads, c.ToVec())
    ensures ExtentOf(roads, bs).Has(c)
  {
    hide ExtentOf, BoxOf;
    var i: nat :| i < |roads| && BoxOf(roads[i]).Has(c.ToVec());
    MarkedIsInBox(roads[i], c);
    RoadInExtent(roads, bs, i, c);
  }
}
