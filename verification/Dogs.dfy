/** A player's dog as a value, and the effect of one tick on it. */
module Dogs {
  import opened Wrappers
  import opened Roads
  import opened Movement
  import opened Gather

  datatype Direction = NORTH | SOUTH | WEST | EAST | STOP

  datatype BagItem = BagItem(id: nat, kind: int)

  datatype DogState = DogState(
    name: string, coord: Vec, speed: Vec, direct: Direction, defaultSpeed: real,
    bag: seq<BagItem>, maxBagSize: nat, score: int, lifeTime: nat, stopTime: nat)

  const ZERO := Vec(0.0, 0.0)
  const PLAYER_WIDTH := 0.6

  function NewDog(coord: Vec, defaultSpeed: real, name: string, maxBagSize: nat): DogState {
    DogState(name, coord, ZERO, NORTH, defaultSpeed, [], maxBagSize, 0, 0, 0)
  }

  // The direction a move string names; y grows to the south.
  function Heading(move: string): Option<Direction> {
    match move
    case "U" => Some(NORTH)
    case "D" => Some(SOUTH)
    case "L" => Some(WEST)
    case "R" => Some(EAST)
    case "" => Some(STOP)
    case _ => None
  }

  // The step of each direction on the map.
  function Toward(direct: Direction): Cell {
    match direct
    case NORTH => Cell(0, -1)
    case SOUTH => Cell(0, 1)
    case WEST => Cell(-1, 0)
    case EAST => Cell(1, 0)
    case STOP => Cell(0, 0)
  }

  // SetDirection on a move string. A known string turns the dog to the direction it names, at its default
  // speed that way; any other changes nothing.
  function Steered(d: DogState, move: string): (e: DogState)
    ensures match Heading(move)
            case None => e == d
            case Some(direct) =>
              var step := Toward(direct).ToVec();
              e == d.(direct := direct, speed := Vec(step.x * d.defaultSpeed, step.y * d.defaultSpeed))
  {
    if move == "U" then d.(direct := NORTH, speed := Vec(0.0, -1.0 * d.defaultSpeed))
    else if move == "D" then d.(direct := SOUTH, speed := Vec(0.0, d.defaultSpeed))
    else if move == "L" then d.(direct := WEST, speed := Vec(-1.0 * d.defaultSpeed, 0.0))
    else if move == "R" then d.(direct := EAST, speed := Vec(d.defaultSpeed, 0.0))
    else if move == "" then d.(direct := STOP, speed := ZERO)
    else d
  }

  // ---------- One tick of one dog ----------

  function Ahead(x: real, v: real, ms: real): real { x + v * ms * 0.001 }

  // The point the dog would reach in dt milliseconds.
  function Requested(d: DogState, dt: nat): Vec {
    Vec(Ahead(d.coord.x, d.speed.x, dt as real), Ahead(d.coord.y, d.speed.y, dt as real))
  }

  predicate Still(d: DogState, dt: nat) { d.coord == Requested(d, dt) }

  // Timers, move and stop of a dog that heads for m, with the roads under it listed in this order.
  function Headed(roads: seq<Road>, d: DogState, m: Vec, dt: nat, order: seq<nat>): DogState
    requires InRange(roads, order)
  {
    var aged := d.(lifeTime := d.lifeTime + dt);
    if d.coord == m then aged.(stopTime := d.stopTime + dt)
    else
      match Resolve(roads, order, m, None)
      case None => aged
      case Some(v) =>
        aged.(coord := v.at, speed := if v.free then d.speed else ZERO, stopTime := 0)
  }

  // One dog's part of a tick.
  function Advanced(roads: seq<Road>, d: DogState, dt: nat, order: seq<nat>): DogState
    requires InRange(roads, order)
  {
    Headed(roads, d, Requested(d, dt), dt, order)
  }

  // The stop time the retirement test sees: zero in a tick in which the dog does not stand still.
  predicate Expires(retirement: nat, d: DogState, dt: nat) {
    (if Still(d, dt) then d.stopTime + dt else 0) >= retirement
  }

  // The sweep that takes part in collision detection, if the dog moved.
  function SweepTo(roads: seq<Road>, id: nat, d: DogState, m: Vec, order: seq<nat>): Option<Gatherer>
    requires InRange(roads, order)
  {
    if d.coord == m then None
    else
      match Resolve(roads, order, m, None)
      case None => None
      case Some(v) => Some(Gatherer(id, d.coord, v.at, PLAYER_WIDTH / 2.0))
  }

  function Sweep(roads: seq<Road>, id: nat, d: DogState, dt: nat, order: seq<nat>): Option<Gatherer>
    requires InRange(roads, order)
  {
    SweepTo(roads, id, d, Requested(d, dt), order)
  }

  // ---------- Safety of one tick ----------

  predicate AxisSpeed(d: DogState) { d.speed.x == 0.0 || d.speed.y == 0.0 }

  ghost predicate Safe(roads: seq<Road>, d: DogState) { OnRoad(roads, d.coord) && AxisSpeed(d) }

  lemma SteeredSafe(roads: seq<Road>, d: DogState, move: string)
    requires Safe(roads, d)
    ensures Safe(roads, Steered(d, move))
  {
  }

  // A tick changes place, speed and timers only, and time passes for every dog alike.
  lemma AdvancedKeeps(roads: seq<Road>, d: DogState, dt: nat, order: seq<nat>)
    requires InRange(roads, order)
    ensures var e := Advanced(roads, d, dt, order);
            e == d.(coord := e.coord, speed := e.speed, stopTime := e.stopTime, lifeTime := d.lifeTime + dt)
  {
  }

  lemma AdvancedStill(roads: seq<Road>, d: DogState, dt: nat, order: seq<nat>)
    requires InRange(roads, order) && Still(d, dt)
    ensures Advanced(roads, d, dt, order) == d.(lifeTime := d.lifeTime + dt, stopTime := d.stopTime + dt)
  {
  }

  lemma RequestedOnAxis(d: DogState, dt: nat)
    requires AxisSpeed(d)
    ensures AxisMove(d.coord, Requested(d, dt))
  {
  }

  // One tick keeps a dog on a road with an axis-parallel speed; what it sweeps lies in one road's
  // rectangle and stops short of, or at, the requested point; its stop timer restarts iff it moves.
  lemma AdvancedSafe(roads: seq<Road>, id: nat, d: DogState, dt: nat, order: seq<nat>)
    requires Safe(roads, d) && IsQuery(roads, d.coord, order)
    ensures var e := Advanced(roads, d, dt, order);
            && Safe(roads, e)
            && OnWay(d.coord, e.coord, Requested(d, dt))
            && e.stopTime == (if Still(d, dt) then d.stopTime + dt else 0)
            && (Still(d, dt) <==> Sweep(roads, id, d, dt, order).None?)
    ensures WayOnRoad(roads, d.coord, Advanced(roads, d, dt, order).coord)
  {
    var m := Requested(d, dt);
    RequestedOnAxis(d, dt);
    if Still(d, dt) {
      var i: nat :| i < |roads| && BoxOf(roads[i]).Has(d.coord);
      forall s: real | 0.0 <= s <= 1.0 ensures BoxOf(roads[i]).Has(Lerp(d.coord, d.coord, s)) {
        BoxConvex(BoxOf(roads[i]), d.coord, d.coord, s);
      }
    } else {
      ResolveExact(roads, d.coord, m, order);
      ResolveSafe(roads, d.coord, m, order);
    }
  }

  // ---------- Where a dog goes ----------

  lemma AheadIsDistance(x: real, v: real, dt: nat)
    ensures Ahead(x, v, dt as real) == x + dt as real / 1000.0 * v
  {
  }

  // The point that dt milliseconds at its speed take the dog to, on both axes.
  ghost predicate HeadsFor(d: DogState, dt: nat, to: Vec) {
    to == Vec(d.coord.x + dt as real / 1000.0 * d.speed.x, d.coord.y + dt as real / 1000.0 * d.speed.y)
  }

  lemma HeadsForRequested(d: DogState, dt: nat)
    ensures HeadsFor(d, dt, Requested(d, dt))
  {
    hide Ahead;
    AheadIsDistance(d.coord.x, d.speed.x, dt);
    AheadIsDistance(d.coord.y, d.speed.y, dt);
  }

  // In dt milliseconds a dog on the roads covers dt / 1000 times its speed, on both axes, and keeps its
  // speed, if one road holds both ends of that way; if none does it stops short and loses its speed.
  lemma MovesAtSpeed(roads: seq<Road>, d: DogState, dt: nat, order: seq<nat>, to: Vec)
    requires IsQuery(roads, d.coord, order) && OnRoad(roads, d.coord) && HeadsFor(d, dt, to)
    ensures var e := Advanced(roads, d, dt, order);
            if Clear(roads, d.coord, to) then e.coord == to && e.speed == d.speed
            else e.coord != to && e.speed == Vec(0.0, 0.0)
  {
    hide Resolve, Requested;
    HeadsForRequested(d, dt);
    ResolveExact(roads, d.coord, to, order);
  }

  // The way of a dog just steered, for w seconds.
  lemma SteeredWay(d: DogState, move: string, w: real)
    ensures var f, s := Steered(d, move), w * d.defaultSpeed;
            && (move == "U" ==> f.direct == NORTH && w * f.speed.x == 0.0 && w * f.speed.y == -s)
            && (move == "D" ==> f.direct == SOUTH && w * f.speed.x == 0.0 && w * f.speed.y == s)
            && (move == "L" ==> f.direct == WEST && w * f.speed.x == -s && w * f.speed.y == 0.0)
            && (move == "R" ==> f.direct == EAST && w * f.speed.x == s && w * f.speed.y == 0.0)
            && (move == "" ==> f.direct == STOP && w * f.speed.x == 0.0 && w * f.speed.y == 0.0)
            && f.coord == d.coord
  {
    assert w * (-1.0 * d.defaultSpeed) == -(w * d.defaultSpeed);
  }

  // Where a dog d is dt milliseconds after it was steered, if the way is clear: dt / 1000 times its default
  // speed to the side that the move string names. The y axis points south.
  ghost predicate Walks(roads: seq<Road>, d: DogState, e: DogState, move: string, dt: nat) {
    var p, s := d.coord, dt as real / 1000.0 * d.defaultSpeed;
    && (move == "U" ==> e.direct == NORTH && (Clear(roads, p, Vec(p.x, p.y - s)) ==> e.coord == Vec(p.x, p.y - s)))
    && (move == "D" ==> e.direct == SOUTH && (Clear(roads, p, Vec(p.x, p.y + s)) ==> e.coord == Vec(p.x, p.y + s)))
    && (move == "L" ==> e.direct == WEST && (Clear(roads, p, Vec(p.x - s, p.y)) ==> e.coord == Vec(p.x - s, p.y)))
    && (move == "R" ==> e.direct == EAST && (Clear(roads, p, Vec(p.x + s, p.y)) ==> e.coord == Vec(p.x + s, p.y)))
    && (move == "" ==> e.direct == STOP && e.coord == p)
  }

  lemma SteeredWalks(roads: seq<Road>, d: DogState, move: string, dt: nat, order: seq<nat>)
    requires IsQuery(roads, d.coord, order) && OnRoad(roads, d.coord)
    ensures Walks(roads, d, Advanced(roads, Steered(d, move), dt, order), move, dt)
  {
    hide Advanced, Steered, Clear, OnRoad, IsQuery;
    var f, s := Steered(d, move), dt as real / 1000.0 * d.defaultSpeed;
    SteeredWay(d, move, dt as real / 1000.0);
    if move == "U" {
      WalksWay(roads, f, dt, order, 0.0, -s);
    } else if move == "D" {
      WalksWay(roads, f, dt, order, 0.0, s);
    } else if move == "L" {
      WalksWay(roads, f, dt, order, -s, 0.0);
    } else if move == "R" {
      WalksWay(roads, f, dt, order, s, 0.0);
    } else if move == "" {
      StandsClear(roads, d.coord);
      WalksWay(roads, f, dt, order, 0.0, 0.0);
    }
  }

  lemma WalksWay(roads: seq<Road>, f: DogState, dt: nat, order: seq<nat>, dx: real, dy: real)
    requires IsQuery(roads, f.coord, order) && OnRoad(roads, f.coord)
    requires dx == dt as real / 1000.0 * f.speed.x && dy == dt as real / 1000.0 * f.speed.y
    ensures InRange(roads, order)
    ensures var e, to := Advanced(roads, f, dt, order), Vec(f.coord.x + dx, f.coord.y + dy);
            e.direct == f.direct && (Clear(roads, f.coord, to) ==> e.coord == to)
  {
    hide Advanced, Clear, OnRoad;
    MovesAtSpeed(roads, f, dt, order, Vec(f.coord.x + dx, f.coord.y + dy));
    AdvancedKeeps(roads, f, dt, order);
  }

  lemma StandsClear(roads: seq<Road>, p: Vec)
    requires OnRoad(roads, p)
    ensures Clear(roads, p, p)
  {
  }

  // What takes part in collision detection, blocked or not, is the way from where the dog was to where it
  // is, with half the dog's width; a dog that does not mean to move has none.
  lemma SweepIsWay(roads: seq<Road>, id: nat, d: DogState, dt: nat, order: seq<nat>, to: Vec)
    requires IsQuery(roads, d.coord, order) && HeadsFor(d, dt, to)
    ensures var sweep := Sweep(roads, id, d, dt, order);
            && (sweep.Some? ==> sweep.value == Gatherer(id, d.coord, Advanced(roads, d, dt, order).coord, 0.3))
            && (OnRoad(roads, d.coord) ==> (sweep.None? <==> d.coord == to))
  {
    hide Resolve, Requested;
    HeadsForRequested(d, dt);
    ResolveExact(roads, d.coord, to, order);
  }

  lemma OneDestination(d: DogState, dt: nat, at: Vec)
    requires HeadsFor(d, dt, at)
    ensures forall to :: HeadsFor(d, dt, to) ==> to == at
  {
  }

  // What has become of a dog d on the roads, and what it sweeps: it has covered dt / 1000 times its speed, or
  // has stopped short and lost its speed if no road holds both ends of that way; the sweep is its way.
  ghost predicate Goes(roads: seq<Road>, id: nat, d: DogState, dt: nat, e: DogState, sweep: Option<Gatherer>) {
    && (sweep.Some? ==> sweep.value == Gatherer(id, d.coord, e.coord, 0.3))
    && forall to :: HeadsFor(d, dt, to) ==>
        && (sweep.None? <==> d.coord == to)
        && if Clear(roads, d.coord, to) then e.coord == to && e.speed == d.speed
           else e.coord != to && e.speed == Vec(0.0, 0.0)
  }

  lemma GoesOn(roads: seq<Road>, id: nat, d: DogState, dt: nat, order: seq<nat>)
    requires IsQuery(roads, d.coord, order) && OnRoad(roads, d.coord)
    ensures Goes(roads, id, d, dt, Advanced(roads, d, dt, order), Sweep(roads, id, d, dt, order))
  {
    hide Advanced, Sweep, Requested, HeadsFor, Clear, OnRoad, IsQuery;
    QueryInRange(roads, d.coord, order);
    HeadsForRequested(d, dt);
    OneDestination(d, dt, Requested(d, dt));
    MovesAtSpeed(roads, d, dt, order, Requested(d, dt));
    SweepIsWay(roads, id, d, dt, order, Requested(d, dt));
  }

  lemma QueryInRange(roads: seq<Road>, p: Vec, order: seq<nat>)
    requires IsQuery(roads, p, order)
    ensures InRange(roads, order)
  {
  }
}
