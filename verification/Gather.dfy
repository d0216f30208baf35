/** FindGatherEvents: all collisions of one tick between moving gatherers and items, in time order. */
module Gather {
  import opened Wrappers
  import opened Roads
  import opened Collision

  datatype Item = Item(position: Vec, width: real, itemId: nat)
  datatype Gatherer = Gatherer(id: nat, startPos: Vec, endPos: Vec, width: real)
  datatype Event = Event(itemId: nat, gathererId: nat, sqDistance: real, time: real)

  // One turn of the inner loop: the event of a gatherer and an item, if they collide.
  function Outcome(g: Gatherer, item: Item): Option<Event> {
    if g.startPos == g.endPos then None
    else
      var r := TryCollectPoint(g.startPos, g.endPos, item.position);
      if r.IsCollected(g.width + item.width) then Some(Event(item.itemId, g.id, r.sqDistance, r.projRatio)) else None
  }

  // The reported event: the ids of its pair, and as its time the fraction of the move at which the item is
  // straight off to the side, within the summed radius; its squared distance is the one at that fraction.
  lemma OutcomeInRange(g: Gatherer, item: Item)
    ensures var o := Outcome(g, item); o.Some? ==>
              && o.value.itemId == item.itemId && o.value.gathererId == g.id
              && 0.0 <= o.value.time <= 1.0
              && 0.0 <= o.value.sqDistance <= (g.width + item.width) * (g.width + item.width)
              && o.value.sqDistance == SqDistAt(g.startPos, g.endPos, item.position, o.value.time)
              && MeetsAt(g.startPos, g.endPos, item.position, g.width + item.width, o.value.time)
  {
    if Outcome(g, item).Some? {
      var a, b, at := g.startPos, g.endPos, item.position;
      hide SqDistAt, Lerp, Dot, Minus;
      TryCollectExact(a, b, at, TryCollectPoint(a, b, at).projRatio);
      Foot(a, b, at, TryCollectPoint(a, b, at).projRatio);
    }
  }

  ghost predicate SortedByTime(events: seq<Event>) {
    forall i, j :: 0 <= i < j < |events| ==> events[i].time <= events[j].time
  }

  // ---------- Listing the results of a partial function over index pairs ----------

  datatype Pair = Pair(g: nat, i: nat)

  predicate Below(p: Pair, g: nat, i: nat) { p.g < g || (p.g == g && p.i < i) }

  ghost predicate Defined<A, B, C>(f: (A, B) -> Option<C>, xs: seq<A>, ys: seq<B>, p: Pair) {
    p.g < |xs| && p.i < |ys| && f(xs[p.g], ys[p.i]).Some?
  }

  // src lists, once each, the index pairs below the mark (g, i) at which f is defined.
  ghost predicate Lists<A, B, C>(f: (A, B) -> Option<C>, xs: seq<A>, ys: seq<B>, g: nat, i: nat, src: seq<Pair>) {
    && (forall k :: 0 <= k < |src| ==> Defined(f, xs, ys, src[k]) && Below(src[k], g, i))
    && Distinct(src)
    && (forall p :: Defined(f, xs, ys, p) && Below(p, g, i) ==> p in src)
  }

  ghost function Values<A, B, C>(f: (A, B) -> Option<C>, xs: seq<A>, ys: seq<B>, src: seq<Pair>): (vs: seq<C>)
    requires forall k :: 0 <= k < |src| ==> Defined(f, xs, ys, src[k])
    ensures |vs| == |src|
    ensures forall k :: 0 <= k < |src| ==> Defined(f, xs, ys, src[k]) && vs[k] == f(xs[src[k].g], ys[src[k].i]).value
  {
    if src == [] then []
    else
      var n := |src| - 1;
      assert Defined(f, xs, ys, src[n]);
      Values(f, xs, ys, src[..n]) + [f(xs[src[n].g], ys[src[n].i]).value]
  }

  lemma ListsNothing<A, B, C>(f: (A, B) -> Option<C>, xs: seq<A>, ys: seq<B>)
    ensures Lists(f, xs, ys, 0, 0, [])
  {
  }

  lemma ListsNext<A, B, C>(f: (A, B) -> Option<C>, xs: seq<A>, ys: seq<B>, g: nat, i: nat, src: seq<Pair>)
    requires g < |xs| && i < |ys| && Lists(f, xs, ys, g, i, src)
    ensures var o := f(xs[g], ys[i]);
            var next := if o.Some? then src + [Pair(g, i)] else src;
            && Lists(f, xs, ys, g, i + 1, next)
            && Values(f, xs, ys, next) == Values(f, xs, ys, src) + if o.Some? then [o.value] else []
  {
    if f(xs[g], ys[i]).Some? {
      var next := src + [Pair(g, i)];
      assert next[..|src|] == src;
      assert forall p :: Defined(f, xs, ys, p) && Below(p, g, i + 1) ==> p == Pair(g, i) || Below(p, g, i);
    } else {
      assert forall p :: Defined(f, xs, ys, p) && Below(p, g, i + 1) ==> p != Pair(g, i);
    }
  }

  lemma ListsRow<A, B, C>(f: (A, B) -> Option<C>, xs: seq<A>, ys: seq<B>, g: nat, src: seq<Pair>)
    requires g < |xs|
    ensures Lists(f, xs, ys, g, |ys|, src) ==> Lists(f, xs, ys, g + 1, 0, src)
    ensures Lists(f, xs, ys, g, 0, src) && (forall i: nat :: i < |ys| ==> f(xs[g], ys[i]).None?) ==>
        Lists(f, xs, ys, g + 1, 0, src)
  {
    assert forall p :: Defined(f, xs, ys, p) && Below(p, g + 1, 0) ==> Below(p, g, |ys|);
    if forall i: nat :: i < |ys| ==> f(xs[g], ys[i]).None? {
      assert forall p :: Defined(f, xs, ys, p) && Below(p, g + 1, 0) ==> Below(p, g, 0);
    }
  }

  // One event for every colliding (gatherer, item) index pair and no others, sorted by time; the
  // order among equal times is free.
  ghost predicate IsGathering(gs: seq<Gatherer>, items: seq<Item>, events: seq<Event>) {
    && SortedByTime(events)
    && exists src :: Lists(Outcome, gs, items, |gs|, 0, src) &&
        multiset(events) == multiset(Values(Outcome, gs, items, src))
  }

  // ---------- The producer ----------

  // Insertion into a sorted list, for a sorting permutation such as std::sort may produce.
  function Insert(e: Event, s: seq<Event>): (r: seq<Event>)
    requires SortedByTime(s)
    ensures SortedByTime(r) && multiset(r) == multiset(s) + multiset{e}
  {
    if s == [] then [e]
    else if e.time < s[0].time then [e] + s
    else
      var rest := Insert(e, s[1..]);
      assert s == [s[0]] + s[1..];
      HeadFirst(s, e, rest);
      [s[0]] + rest
  }

  lemma HeadFirst(s: seq<Event>, e: Event, rest: seq<Event>)
    requires s != [] && SortedByTime(s) && s[0].time <= e.time
    requires multiset(rest) == multiset(s[1..]) + multiset{e}
    ensures forall k :: 0 <= k < |rest| ==> s[0].time <= rest[k].time
  {
    forall k | 0 <= k < |rest| ensures s[0].time <= rest[k].time {
      var x := rest[k];
      assert x in multiset(rest);
      assert x == e || x in s[1..];
    }
  }

  function Sort(s: seq<Event>): (r: seq<Event>)
    ensures SortedByTime(r) && multiset(r) == multiset(s)
  {
    if s == [] then [] else
      assert s == s[..|s| - 1] + [s[|s| - 1]];
      Insert(s[|s| - 1], Sort(s[..|s| - 1]))
  }

  lemma StandingStillMeetsNothing(g: Gatherer, items: seq<Item>)
    requires g.startPos == g.endPos
    ensures forall i: nat :: i < |items| ==> Outcome(g, items[i]).None?
  {
  }

  method FindGatherEvents(gs: seq<Gatherer>, items: seq<Item>) returns (events: seq<Event>)
    ensures IsGathering(gs, items, events)
  {
    hide Outcome, Below, Defined;
    events := [];
    ghost var src: seq<Pair> := [];
    ListsNothing(Outcome, gs, items);
    for g := 0 to |gs|
      invariant Lists(Outcome, gs, items, g, 0, src) && events == Values(Outcome, gs, items, src)
    {
      if gs[g].startPos == gs[g].endPos {
        StandingStillMeetsNothing(gs[g], items);
        ListsRow(Outcome, gs, items, g, src);
        continue;
      }
      for i := 0 to |items|
        invariant Lists(Outcome, gs, items, g, i, src) && events == Values(Outcome, gs, items, src)
      {
        ListsNext(Outcome, gs, items, g, i, src);
        var o := Outcome(gs[g], items[i]);
        if o.Some? {
          events := events + [o.value];
          src := src + [Pair(g, i)];
        }
      }
      ListsRow(Outcome, gs, items, g, src);
    }
    events := Sort(events);
  }

  // ---------- What the event list says ----------

  lemma ListedIff<A, B, C>(f: (A, B) -> Option<C>, xs: seq<A>, ys: seq<B>, src: seq<Pair>, e: C)
    requires Lists(f, xs, ys, |xs|, 0, src)
    ensures e in Values(f, xs, ys, src) <==> exists p :: Defined(f, xs, ys, p) && f(xs[p.g], ys[p.i]) == Some(e)
  {
    var vs := Values(f, xs, ys, src);
    if p :| Defined(f, xs, ys, p) && f(xs[p.g], ys[p.i]) == Some(e) {
      assert Below(p, |xs|, 0);
      var k :| 0 <= k < |src| && src[k] == p;
      assert vs[k] == e;
    }
  }

  // An event is in the list exactly when some colliding pair produces it.
  lemma EventsAreOutcomes(gs: seq<Gatherer>, items: seq<Item>, events: seq<Event>, e: Event)
    requires IsGathering(gs, items, events)
    ensures e in events <==> exists p :: Defined(Outcome, gs, items, p) && Outcome(gs[p.g], items[p.i]) == Some(e)
  {
    var src: seq<Pair> :| Lists(Outcome, gs, items, |gs|, 0, src) &&
        multiset(events) == multiset(Values(Outcome, gs, items, src));
    assert e in events <==> e in multiset(events);
    assert e in Values(Outcome, gs, items, src) <==> e in multiset(Values(Outcome, gs, items, src));
    ListedIff(Outcome, gs, items, src, e);
  }

  lemma {:induction false} DistinctCount(src: seq<Pair>)
    requires Distinct(src)
    ensures |set p | p in src| == |src|
  {
    if src != [] {
      var n := |src| - 1;
      DistinctCount(src[..n]);
      assert (set p | p in src) == (set p | p in src[..n]) + {src[n]};
    }
  }

  lemma ListedCount<A, B, C>(f: (A, B) -> Option<C>, xs: seq<A>, ys: seq<B>, src: seq<Pair>, hits: set<Pair>)
    requires Lists(f, xs, ys, |xs|, 0, src) && forall p :: p in hits <==> Defined(f, xs, ys, p)
    ensures |Values(f, xs, ys, src)| == |hits|
  {
    DistinctCount(src);
    assert forall p :: Defined(f, xs, ys, p) ==> Below(p, |xs|, 0);
    assert hits == set p | p in src;
  }

  // There are as many events as colliding pairs: none is reported twice.
  lemma OneEventPerHit(gs: seq<Gatherer>, items: seq<Item>, events: seq<Event>, hits: set<Pair>)
    requires IsGathering(gs, items, events)
    requires forall p :: p in hits <==> Defined(Outcome, gs, items, p)
    ensures |events| == |hits|
  {
    var src: seq<Pair> :| Lists(Outcome, gs, items, |gs|, 0, src) &&
        multiset(events) == multiset(Values(Outcome, gs, items, src));
    assert |multiset(events)| == |events| && |multiset(Values(Outcome, gs, items, src))| == |src|;
    ListedCount(Outcome, gs, items, src, hits);
  }
}
