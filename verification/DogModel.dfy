/** The dog object, updated in place; what it holds is its value in module Dogs. */
module DogModel {
  import opened Roads
  import opened Dogs

  function Kinds(bag: seq<BagItem>): seq<int> {
    seq(|bag|, k requires 0 <= k < |bag| => bag[k].kind)
  }

  class Dog {
    const name: string
    var coord: Vec
    var speed: Vec
    var direct: Direction
    const defaultSpeed: real
    var bag: seq<BagItem>
    const maxBagSize: nat
    var score: int
    var lifeTime: nat
    var stopTime: nat

    function View(): DogState
      reads this
    {
      DogState(name, coord, speed, direct, defaultSpeed, bag, maxBagSize, score, lifeTime, stopTime)
    }

    constructor (coord: Vec, defaultSpeed: real, name: string, maxBagSize: nat)
      ensures View() == NewDog(coord, defaultSpeed, name, maxBagSize)
    {
      this.name, this.coord, this.defaultSpeed, this.maxBagSize := name, coord, defaultSpeed, maxBagSize;
      speed, direct, bag, score, lifeTime, stopTime := ZERO, NORTH, [], 0, 0, 0;
    }

    method SetDirection(move: string)
      modifies this
      ensures View() == Steered(old(View()), move)
    {
      if move == "U" {
        direct, speed := NORTH, Vec(0.0, -1.0 * defaultSpeed);
      } else if move == "D" {
        direct, speed := SOUTH, Vec(0.0, defaultSpeed);
      } else if move == "L" {
        direct, speed := WEST, Vec(-1.0 * defaultSpeed, 0.0);
      } else if move == "R" {
        direct, speed := EAST, Vec(defaultSpeed, 0.0);
      } else if move == "" {
        direct, speed := STOP, ZERO;
      }
    }

    method SetMoveCoord(coord: Vec)
      modifies this
      ensures View() == old(View()).(coord := coord)
    {
      this.coord := coord;
    }

    method SetMoveSpeed(speed: Vec)
      modifies this
      ensures View() == old(View()).(speed := speed)
    {
      this.speed := speed;
    }

    method SetRestoreDirection(direction: Direction)
      modifies this
      ensures View() == old(View()).(direct := direction)
    {
      match direction
      case NORTH => direct := NORTH;
      case SOUTH => direct := SOUTH;
      case WEST => direct := WEST;
      case EAST => direct := EAST;
      case STOP => direct := STOP;
    }

    // A bag never takes more than it has room for.
    method SetBagItem(item: BagItem) returns (taken: bool)
      modifies this
      ensures taken == (|old(bag)| < maxBagSize)
      ensures View() == old(View()).(bag := if taken then old(bag) + [item] else old(bag))
      ensures |old(bag)| <= maxBagSize ==> |bag| <= maxBagSize
    {
      if |bag| < maxBagSize {
        bag := bag + [item];
        return true;
      }
      return false;
    }

    method ClearBag() returns (kinds: seq<int>)
      modifies this
      ensures kinds == Kinds(old(bag))
      ensures View() == old(View()).(bag := [])
    {
      kinds := [];
      for k := 0 to |bag|
        invariant kinds == Kinds(bag[..k]) && View() == old(View())
      {
        kinds := kinds + [bag[k].kind];
        assert bag[..k + 1] == bag[..k] + [bag[k]];
      }
      assert bag[..|bag|] == bag;
      bag := [];
    }

    method SetBagData(items: seq<BagItem>)
      modifies this
      ensures View() == old(View()).(bag := items)
    {
      bag := items;
    }

    method AddScore(points: int)
      modifies this
      ensures View() == old(View()).(score := old(score) + points)
    {
      score := score + points;
    }

    method AddLifeTime(delta: nat) returns (total: nat)
      modifies this
      ensures View() == old(View()).(lifeTime := old(lifeTime) + delta) && total == lifeTime
    {
      lifeTime := lifeTime + delta;
      return lifeTime;
    }

    method AddStopTime(delta: nat) returns (total: nat)
      modifies this
      ensures View() == old(View()).(stopTime := old(stopTime) + delta) && total == stopTime
    {
      stopTime := stopTime + delta;
      return stopTime;
    }

    method ResetStopTime()
      modifies this
      ensures View() == old(View()).(stopTime := 0)
    {
      stopTime := 0;
    }
  }
}
