/** Rebuilding a dog object from what was saved of it. */
module DogSerialization {
  import opened DogModel
  import opened Servers

  method Serialize(id: nat, dog: Dog) returns (r: DogRepr)
    ensures r == ReprOf(id, dog.View()) && RestoredDog(r) == dog.View().(lifeTime := 0, stopTime := 0)
  {
    r := DogRepr(id, dog.name, dog.coord, dog.maxBagSize, dog.speed, dog.defaultSpeed, dog.direct, dog.score, dog.bag);
  }

  // A new dog gets back its speed, direction, score and bag, one after the other; its timers start at 0.
  method Restore(r: DogRepr) returns (id: nat, dog: Dog)
    ensures id == r.id && fresh(dog) && dog.View() == RestoredDog(r) && ReprOf(id, dog.View()) == r
  {
    dog := new Dog(r.coord, r.defaultSpeed, r.name, r.bagCapacity);
    dog.SetMoveSpeed(r.speed);
    dog.SetRestoreDirection(r.direction);
    dog.AddScore(r.score);
    dog.SetBagData(r.bagContent);
    id := r.id;
  }
}
