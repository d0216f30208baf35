/** A map's road index, built in a loop, and the resolver's loop over what a query returns. */
module RoadIndex {
  import opened Wrappers
  import opened Roads
  import opened Movement
  import opened Sessions

  // An entry of the box index: the rectangle and the number of its road.
  datatype Entry = Entry(box: Box, road: nat)

  ghost function Entries(roads: seq<Road>, n: nat): seq<Entry>
    requires n <= |roads|
  {
    if n == 0 then [] else Entries(roads, n - 1) + [Entry(BoxOf(roads[n - 1]), n - 1)]
  }

  lemma {:induction false} EntryAt(roads: seq<Road>, n: nat, k: nat)
    requires k < n <= |roads|
    ensures |Entries(roads, n)| == n && Entries(roads, n)[k] == Entry(BoxOf(roads[k]), k)
  {
    EntryCount(roads, n - 1);
    if k < n - 1 {
      EntryAt(roads, n - 1, k);
    }
  }

  lemma {:induction false} EntryCount(roads: seq<Road>, n: nat)
    requires n <= |roads|
    ensures |Entries(roads, n)| == n
  {
    if n > 0 {
      EntryCount(roads, n - 1);
    }
  }

  // What an "intersects" query answers: the entries that contain the point, once each, in an order of
  // the index's choosing.
  ghost predicate Answers(index: seq<Entry>, p: Vec, hits: seq<nat>) {
    && (forall k :: 0 <= k < |hits| ==> hits[k] < |index| && index[hits[k]].box.Has(p))
    && Distinct(hits)
    && (forall e: nat :: e < |index| && index[e].box.Has(p) ==> e in hits)
  }

  // An index built once answers with the roads around the point, each once.
  lemma AnswersAreRoads(roads: seq<Road>, p: Vec, hits: seq<nat>)
    requires Answers(Entries(roads, |roads|), p, hits)
    ensures IsQuery(roads, p, hits)
    ensures forall k :: 0 <= k < |hits| ==>
        hits[k] < |Entries(roads, |roads|)| && Entries(roads, |roads|)[hits[k]].road == hits[k]
  {
    hide Entries, BoxOf;
    EntryCount(roads, |roads|);
    forall k: nat | k < |roads| ensures Entries(roads, |roads|)[k] == Entry(BoxOf(roads[k]), k) {
      EntryAt(roads, |roads|, k);
    }
  }

  // The rectangle and the extent of a road in each of its four orientations.
  lemma Corners(r: Road)
    ensures var x0, y0, x1, y1, h := r.start.x as real, r.start.y as real, r.End().x as real, r.End().y as real,
                HALF_ROAD_WIDTH;
            && BoxOf(r) == (if (if r.IsHorizontal() then x0 <= x1 else y0 <= y1)
                            then Box(Vec(x0 - h, y0 - h), Vec(x1 + h, y1 + h))
                            else Box(Vec(x1 - h, y1 - h), Vec(x0 + h, y0 + h)))
            && SpanOf(r) == (if r.IsHorizontal() then (if x0 <= x1 then Span(x0 - h, x1 + h) else Span(x1 - h, x0 + h))
                             else (if y0 <= y1 then Span(y0 - h, y1 + h) else Span(y1 - h, y0 + h)))
  {
  }

  lemma ResolveAll(roads: seq<Road>, order: seq<nat>, m: Vec, acc: Option<Verdict>)
    requires InRange(roads, order)
    ensures Resolve(roads, order[0..], m, acc) == Resolve(roads, order, m, acc)
  {
    assert order[0..] == order;
  }

  lemma ResolveNext(roads: seq<Road>, order: seq<nat>, k: nat, m: Vec, acc: Option<Verdict>)
    requires InRange(roads, order) && k < |order|
    ensures var v := Visit(roads[order[k]], m, acc);
            Resolve(roads, order[k..], m, acc) == if v.free then Some(v) else Resolve(roads, order[k + 1..], m, Some(v))
  {
    hide Visit;
    assert order[k..][0] == order[k] && order[k..][1..] == order[k + 1..];
  }

  lemma ResolveNone(roads: seq<Road>, m: Vec, acc: Option<Verdict>)
    ensures Resolve(roads, [], m, acc) == acc
  {
  }

  class RoadMap {
    const config: MapConfig
    var lengths: map<nat, Span>
    var index: seq<Entry>

    constructor (config: MapConfig)
      ensures this.config == config && lengths == map[] && index == []
    {
      this.config := config;
      lengths := map[];
      index := [];
    }

    // The index was built, once.
    ghost predicate Indexed()
      reads this
    {
      && index == Entries(config.roads, |config.roads|)
      && forall i: nat :: i < |config.roads| ==> i in lengths && lengths[i] == SpanOf(config.roads[i])
    }

    // The four orientations' corners and extents, road by road.
    method CreateRoadRTree()
      modifies this
      ensures index == old(index) + Entries(config.roads, |config.roads|)
      ensures forall i: nat :: i < |config.roads| && i !in old(lengths) ==>
          i in lengths && lengths[i] == SpanOf(config.roads[i])
      ensures forall i :: i in old(lengths) ==> i in lengths && lengths[i] == old(lengths)[i]
      ensures old(index) == [] && old(lengths) == map[] ==> Indexed()
    {
      hide SpanOf, BoxOf;
      var roads := config.roads;
      var h := HALF_ROAD_WIDTH;
      var boxes: seq<Entry> := [];
      for i := 0 to |roads|
        invariant index == old(index) && boxes == Entries(roads, i)
        invariant forall k: nat :: k < i && k !in old(lengths) ==> k in lengths && lengths[k] == SpanOf(roads[k])
        invariant forall k :: k in lengths ==> k in old(lengths) || k < i
        invariant forall k :: k in old(lengths) ==> k in lengths && lengths[k] == old(lengths)[k]
      {
        Corners(roads[i]);
        var x0, y0 := roads[i].start.x as real, roads[i].start.y as real;
        var x1, y1 := roads[i].End().x as real, roads[i].End().y as real;
        var p1, p3;
        if roads[i].IsHorizontal() {
          if x0 <= x1 {
            lengths := Emplace(lengths, i, Span(x0 - h, x1 + h));
            p1, p3 := Vec(x0 - h, y0 - h), Vec(x1 + h, y1 + h);
          } else {
            lengths := Emplace(lengths, i, Span(x1 - h, x0 + h));
            p1, p3 := Vec(x1 - h, y1 - h), Vec(x0 + h, y0 + h);
          }
        } else {
          if y0 <= y1 {
            lengths := Emplace(lengths, i, Span(y0 - h, y1 + h));
            p1, p3 := Vec(x0 - h, y0 - h), Vec(x1 + h, y1 + h);
          } else {
            lengths := Emplace(lengths, i, Span(y1 - h, y0 + h));
            p1, p3 := Vec(x1 - h, y1 - h), Vec(x0 + h, y0 + h);
          }
        }
        boxes := boxes + [Entry(Box(p1, p3), i)];
      }
      index := index + boxes;
    }

    // The index's query: every entry that contains the point, in no promised order.
    method Query(p: Vec) returns (hits: seq<nat>)
      ensures Answers(index, p, hits)
    {
      hits := AnyOrder(set e: nat | e < |index| && index[e].box.Has(p));
      forall k | 0 <= k < |hits| ensures hits[k] < |index| && index[hits[k]].box.Has(p) {
        assert hits[k] in hits;
      }
    }

    // The resolver: the roads that the query finds, in its order, until one accepts the move.
    method GetSuccessRoadMoveSimple(current: Vec, move: Vec) returns (result: Option<Verdict>, ghost hits: seq<nat>)
      requires Indexed()
      ensures IsQuery(config.roads, current, hits) && result == Resolve(config.roads, hits, move, None)
      ensures result.None? <==> !OnRoad(config.roads, current)
      ensures result.Some? && result.value.free <==>
                exists i: nat :: i < |config.roads| && BoxOf(config.roads[i]).Has(current) &&
                    BoxOf(config.roads[i]).Has(move)
      ensures result.Some? && result.value.free ==> result.value.at == move
    {
      hide BoxOf, SpanOf, Resolve, Visit, Entries, Answers, OnRoad;
      var roads := config.roads;
      var answer := Query(current);
      hits := answer;
      AnswersAreRoads(roads, current, answer);
      ResolveExact(roads, current, move, answer);
      var found := index;
      var order := seq(|answer|, k requires 0 <= k < |answer| && answer[k] < |found| => found[answer[k]].road);
      assert order == answer;
      result := None;
      ResolveAll(roads, order, move, None);
      for k := 0 to |order|
        invariant Resolve(roads, order[k..], move, result) == Resolve(roads, order, move, None)
      {
        ResolveNext(roads, order, k, move, result);
        var v := VisitRoad(order[k], move, result);
        result := Some(v);
        if v.free {
          return;
        }
      }
      ResolveNone(roads, move, result);
    }

    // One turn of the resolver's loop.
    method VisitRoad(road: nat, move: Vec, soFar: Option<Verdict>) returns (v: Verdict)
      requires Indexed() && road < |config.roads|
      ensures v == Visit(config.roads[road], move, soFar)
    {
      hide SpanOf;
      var length := lengths[road];
      var start := config.roads[road].start;
      var minX, maxX := start.x as real - HALF_ROAD_WIDTH, start.x as real + HALF_ROAD_WIDTH;
      var minY, maxY := start.y as real - HALF_ROAD_WIDTH, start.y as real + HALF_ROAD_WIDTH;
      if config.roads[road].IsHorizontal() {
        if move.x < length.first {
          v := Verdict(false, Vec(length.first, move.y));
        } else if move.x > length.second {
          v := Verdict(false, Vec(length.second, move.y));
        } else if move.y < minY {
          v := Verdict(false, Vec(move.x, minY));
        } else if move.y > maxY {
          v := Verdict(false, Vec(move.x, maxY));
        } else {
          v := Verdict(true, move);
        }
      } else {
        if move.y < length.first {
          v := Verdict(false, Vec(move.x, length.first));
        } else if move.y > length.second {
          v := Verdict(false, Vec(move.x, length.second));
        } else if move.x < minX {
          v := if soFar.Some? then soFar.value else Verdict(false, Vec(minX, move.y));
        } else if move.x > maxX {
          v := if soFar.Some? then soFar.value else Verdict(false, Vec(maxX, move.y));
        } else {
          v := Verdict(true, move);
        }
      }
    }

    // A random point of the grid on a random road's centreline.
    method GetRandomCoordOnRoads() returns (c: Cell)
      requires |config.roads| > 0
      ensures SpawnPoint(config, c) && OnRoad(config.roads, c.ToVec())
    {
      var roadId: nat :| roadId < |config.roads|;
      var road := config.roads[roadId];
      var p1 := road.start;
      var start := if road.IsHorizontal() then road.start.x else road.start.y;
      var end := if road.IsHorizontal() then road.End().x else road.End().y;
      if start > end {
        start, end := end, start;
      }
      assert start <= start <= end;
      var point: int :| start <= point <= end;
      c := if road.IsHorizontal() then Cell(point, p1.y) else Cell(p1.x, point);
      assert OnCentreline(road, c.ToVec());
      GridPointOnRoad(config.roads, roadId, c);
    }

    method GetRandomLootType() returns (kind: int)
      requires config.lootTypes > 0
      ensures 0 <= kind < config.lootTypes
    {
      assert 0 < config.lootTypes;
      kind :| 0 <= kind < config.lootTypes;
    }
  }
}
