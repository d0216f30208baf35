# Lost-and-found dogs: a verified model of the game simulation

The server simulates dogs that players steer along roads. Dogs pick up lost things, hand them in at offices,
score, and retire when they stand still for too long. The state can be saved to a file and restored. This
project models that simulation core and the web client's raster of the roads, and proves what the code keeps
over every run.

Run `dafny verify dfyconfig.toml` to check everything.

## How the model is built

There are two layers, and every operation appears in both.

* **Values.** A map, a dog, a session and a whole server are datatypes. One action of the server (join, steer,
  tick, save, restart) is a function of the state and of a record of the choices the code does not make by itself:
  container orders, the order in which the road index answers, the order of events at equal times, random draws.
  A predicate says which choices are possible. The theorems about runs are proved here, for all possible choices.
  Modules `Roads`, `Movement`, `StopOrder`, `Collision`, `Gather`, `Dogs`, `Sessions`, `Servers` hold the
  definitions, and `TickSplitting`, `Determinism`, `Custody`, `Arrival`, `Journeys`, `Requests`, `Records`, `Safety`,
  `Agreement`, `Accounting`, `Retirement`, `Autosave`, `SaveRestore`, `AfterRestart`, `DiskHistory`, `LootBound`,
  `LootIds`, `LootWaiting`, `TokenLookup`, `SecondTokens`, `ZeroLimit` the theorems.
  `Street` has a small map and the first actions on it; `ZeroLimit`, `ReusedLootId`, `ReusedPlayerId`, `StrandedToken`
  and `LostGround` continue them to whole runs that show what can go wrong.
* **Objects.** The classes of the source, with the fields its methods update in place: `RoadMap`, `Dog`,
  `LootGenerator`, `GameSession`, `Players`, `PlayerTokens`, `Application`, and the client's `GameMap`. Each method has
  the source's loops and branches and is proved against the value layer: its new state is the value function of its
  old state, for some choices that are possible. Nondeterminism is real here: containers are visited by drawing
  any remaining key, and random numbers are arbitrary in their ranges.

`Serving.Serve` joins the layers. An application that answers a list of requests goes through a run of the server,
so all theorems about runs hold of the objects; `Serving.Start` does the same for a restart from the state file, and
`Serving.ServeFirst` says what a process gets that is started for the first time. A move request whose dog is not found
throws, nothing on its way catches that, and the process ends without saving (`src/main.cpp:204-218`): such a request is
not an action of the server, `Serve` stops there, and the next process starts from that state.

Sessions carry a history (`Ledger`): what was placed, delivered and lost, and which scores were recorded.
It is ghost state of the objects and only the conservation laws speak about it.

## Hypotheses

* `MapsKeyed`: the game lists its maps by their own ids, as `Game::AddMap` enters them (`src/model.cpp:220-232`).
* `GoodConfig`: in addition, every map has a road, a loot type, and a value for every loot type. The loader reads values in a loop
  that skips types without one (`src/json_loader.cpp:129-138`); looking such a type up would throw.
* All processes of one server run with one configuration: the loaded game and the command line do not change between
  them.
* Tokens are fresh when given out (two 64-bit random numbers) and not empty.
* The retirement time is positive where a lemma says so; `ZeroLimit.BooksBalanceIffLimitPositive` shows that the value
  law needs it.
* Loot ids below 9999 where a lemma says so: that is where the office ids begin (`src/model.cpp:348`).

## What turned out not to hold

Each is stated with the exact condition under which it does hold.

* A blocked move need not go as far as some road under the dog allows, and where it stops can depend on the order in
  which the index lists the roads. `StopOrder.OrderFreeIffDecidersAgree`, `HorizontalStop` and `VerticalStop` give the
  exact conditions, `CrossingDependsOnOrder` a crossing at which a vertical move has two outcomes.
* An item just beyond the end of a move is within reach of it and yet not collected: the test uses the
  perpendicular foot only (`Collision.CollectedIffReachable`, `OvershootNotCollected`).
* A saved record need not carry the final score: with retirement time 0 a moving dog retires too, and it can deliver
  after its record was written. `ZeroLimit.RecordMissesScore` has a run of three actions in which that happens;
  `RecordsFinalIffLimitPositive` says that a positive retirement time is exactly what excludes it from all runs, and
  `BooksBalanceIffLimitPositive` that it is exactly what makes the books of all sessions balance in all runs.
* After a restart the player id counter is the number of players. The next player gets an id of its own if and only
  if that number is not an id in use; otherwise its token belongs to the player who has it
  (`AfterRestart.JoinAfterRestart`). `ReusedPlayerId.PlayerIdTwice` has a run in which it does, and
  `AfterRestart.RunIndexedIff` proves that this is the only way in which the indexes come to disagree.
* The dog behind a token can be gone while the token is not: a retired dog takes one token with it, and a player whose id
  was given out twice has two. `StrandedToken.TokenOutlivesDog` has a run that ends so. In a run every token leads to its
  dog in all states if and only if no tick keeps a token whose dog it removes (`TokenLookup.RunFindsIff`); it is enough
  that no join meets an id in use (`RunFreshFinds`). `SecondTokens.TickFindsIff` and `SecondTokenStays` say by the state
  before it which ticks are safe.
* After a restart the id counter of lost things is the number of things on the ground, while things in bags keep their
  ids. In a run every id stays in exactly one place, and all that is drawn gets onto the ground, if and only if no tick
  draws an id already known to its session (`LootIds.RunInOnePlaceIff`). `LootIds.FirstDrawAfterRestart` says when the
  first draw after a restart does, `RestartedInOnePlaceIff` says it for the whole process by the saved ground and bags,
  and `ReusedLootId.ThingDrawnTwice` has a run in which one id ends up both on the ground and in a bag.
* A session without dogs is saved without its lost things and does not come back (`DiskHistory.RestoredTo`);
  `LostGround.ThingLostAtRestart` has a run in which a thing is lost that way.
* A lost thing whose id reaches 9999 is never picked up; reaching it counts as a visit to an office
  (`Arrival.OfficeRangeStays`).

## Model

| member | source | states |
|---|---|---|
| Roads.BoxIsBand | src/model.cpp:62-106 | For all four orientations the stored box is exactly the set of points within 0.4, per axis, of some point between the two ends of the road. |
| Roads.SpanIsLongAxis | src/model.cpp:74-102 | The stored length interval is the box's extent along the road; across it the box is the start line plus or minus 0.4. |
| Roads.GridPointOnRoad | src/model.cpp:35-52 | A grid point of a road's centreline is on a road. |
| RoadIndex.AnswersAreRoads | src/model.cpp:129-135 | What an index built once answers are the roads whose rectangle holds the point, each once. |
| RoadIndex.RoadMap.CreateRoadRTree | src/model.cpp:62-123 | The loop adds one entry per road with its box and records every road's extent, keeping extents already there. |
| RoadIndex.RoadMap.GetSuccessRoadMoveSimple | src/model.cpp:126-184 | The loop over the query's answer computes the resolver's fold; it answers nothing exactly off the roads, accepts exactly when one road holds both endpoints, and then the point asked for. |
| RoadIndex.RoadMap.GetRandomCoordOnRoads | src/model.cpp:35-52 | Whatever is drawn, the point is on the centreline of a road of the map, hence on a road. |
| Movement.ResolveExact | src/model.cpp:126-184 | In every visiting order: no answer iff off the roads, acceptance iff one road holds both endpoints, and the point asked for is reached iff the move is accepted. |
| Movement.ResolveSafe | src/model.cpp:126-184 | In every visiting order an axis-parallel move ends on its way to the point asked for, and all it sweeps lies in one road's rectangle. |
| Movement.DiagonalLeavesRoad | src/model.cpp:146-157 | A diagonal move can be clamped to a point off every road, so axis-parallel speed is needed. |
| StopOrder.PullIsExit | src/model.cpp:146-180 | Where one road stops a move is the point at which the way leaves the road's rectangle. |
| StopOrder.StopRule | src/model.cpp:137-183 | Who decides a blocked move, in every visiting order: a vertical one stops where it leaves the road visited last, a horizontal one where it leaves the last horizontal road visited, or the first road of all if none is horizontal. |
| StopOrder.OrderFreeIffDecidersAgree | src/model.cpp:137-183 | A blocked move's outcome is the same in all visiting orders iff the roads that can decide it stop it at one place. |
| StopOrder.HorizontalStop | src/model.cpp:137-183 | A blocked horizontal move is order-free, and always the farthest any road allows, iff the horizontal roads under the dog agree; one such road or none is enough. |
| StopOrder.VerticalStop | src/model.cpp:163-180 | A blocked vertical move is order-free, and always the farthest, iff all roads under the dog agree. |
| StopOrder.CrossingDependsOnOrder | src/model.cpp:153-175 | A concrete crossing at which a vertical move stops at two places, depending on the order. |
| Collision.TryCollectExact | src/collision_detector.cpp:6-23 | The reported squared distance is the one at the reported fraction, is not negative, and at any fraction s the squared distance exceeds it by (s - fraction)^2 times the squared length: it is the least over the line. |
| Collision.CollectedIffMet | src/collision_detector.cpp:55-57 | Collected iff at some fraction in [0, 1] the item is straight off to the side and within the radius. |
| Collision.CollectedIffReachable | src/collision_detector.cpp:55-57 | Collected iff the foot is on the segment and some point of the segment is within the radius. |
| Collision.OvershootNotCollected | src/collision_detector.cpp:55-57 | An item within reach of the move's end, but ahead of it, is not collected. |
| Collision.SplitCollects | src/collision_detector.cpp:6-23 | Cutting a move at any interior point collects exactly the same items on the two parts as on the whole. |
| Gather.OutcomeInRange | src/collision_detector.cpp:35-42 | Every event carries the ids of its pair; its time is the fraction of the move, in [0, 1], at which the item is straight off to the side, its squared distance the one at that fraction, within the squared summed radius. |
| Gather.FindGatherEvents | src/collision_detector.cpp:25-53 | The nested loops and the sort give a time-sorted list with one event for every colliding index pair and no other. |
| Gather.EventsAreOutcomes | src/collision_detector.cpp:25-53 | An event is in the list iff some gatherer and item of the input produce it. |
| Gather.OneEventPerHit | src/collision_detector.cpp:28-45 | There are as many events as colliding index pairs. |
| LootGeneration.GeneratedWithinShortage | src/loot_generator.cpp:8-20 | Never more than the shortage, nothing when there is enough loot, the whole shortage at full chance. |
| LootGeneration.GeneratedIsNearest | src/loot_generator.cpp:11-15 | It is the whole number nearest to the shortage times the chance clamped to [0, 1]. |
| LootGeneration.LootGenerator.Generate | src/loot_generator.cpp:8-20 | The number generated, and the waiting time: cleared by a nonzero output, else longer by the delta. |
| LootWaiting.RunWaiting | src/loot_generator.cpp:8-20 | In every state of every run, restarts included, the waiting time of a session's generator is the game time since the last tick in which something was drawn for the session, or since the session was created or restored. |
| LootWaiting.WaitBegins | src/loot_generator.cpp:16-18 | Every session has such a beginning of its wait. |
| Dogs.Steered | src/model.cpp:468-493 | A known move string gives the direction it names and the default speed that way; an unknown one changes nothing. |
| Dogs.AdvancedSafe | src/application.cpp:185-221 | One tick keeps a dog on a road with an axis-parallel speed, sweeps within one road's rectangle, never overshoots, and clears the stop time iff the dog means to move. |
| Dogs.MovesAtSpeed | src/application.cpp:193-215 | On both axes a dog covers dt / 1000 times its speed and keeps its speed if one road holds both ends of that way; if none does it stops short and its speed becomes (0, 0). |
| Dogs.SteeredWalks | src/application.cpp:193-208 | A dog just steered by U, D, L or R on a clear way is dt / 1000 times its default speed further up, down, left or right, and faces that side; after the empty string it stays. |
| Dogs.SweepIsWay | src/application.cpp:205-217 | What takes part in collision detection, blocked or not, is the way from where the dog was to where it is, with width 0.3; there is none iff the dog does not mean to move. |
| TickSplitting.TickSplits | src/application.cpp:193-208 | For an unobstructed dog two part ticks give the dog of the whole tick, and an item is collected on the whole sweep iff on one of the two. |
| TickSplitting.MoveSplits | src/application.cpp:193-208 | The same for cutting an unobstructed dog's way at any interior point. |
| TickSplitting.StillIffNoSpeed | src/application.cpp:193-196 | A dog counts as standing still iff its speed is (0, 0) or the tick has no length. |
| Determinism.TickIsDetermined | src/application.cpp:176-269 | With the same draws, order-free moves and no two events at one time, a session after a tick is the same for all orders in which containers are visited, its books included. |
| DogModel.Dog.SetDirection | src/model.cpp:468-493 | The dog's value becomes the steered one. |
| DogModel.Dog.SetBagItem | src/model.cpp:521-527 | Taken iff there was room; then it is the last thing in the bag; a bag within its capacity stays so. |
| DogModel.Dog.ClearBag | src/model.cpp:529-537 | The bag is emptied and the kinds it held come back in order. |
| DogSerialization.Serialize | src/model_serialization.h:75-85 | What is saved of a dog restores to the dog with its timers cleared. |
| DogSerialization.Restore | src/model_serialization.h:88-96 | The mutators build the restored dog, and saving it again gives back what it was restored from. |
| Sessions.EventsNameMovers | src/application.cpp:185-245 | Every event of a tick names a dog of the session that moved in it, so its lookup succeeds. |
| Sessions.TickedDog | src/application.cpp:185-269 | After a tick a session has exactly the dogs that did not expire, moved by one step; events changed their bags and scores only. |
| Sessions.GroundInTick | src/model.cpp:342-355 | On the ground in a tick are the things that were there and the drawn ones under the ids from the counter on, but that an id in use keeps its thing; a drawn thing has a kind of the map and lies on the centreline of a road. |
| SessionModel.GameSession.AddDog | src/model.cpp:285-296 | A dog is added unless its id is in use, and the looter counter is the number of dogs. |
| SessionModel.GameSession.RemoveDogById | src/model.cpp:398-403 | Exactly that dog leaves, and the looter counter is the number of dogs. |
| SessionModel.GameSession.GenerateLoot | src/model.cpp:342-355 | As many things as the generator gives for the dogs present are placed on road points under successive ids. |
| SessionModel.GameSession.GetLootToItems | src/model.cpp:361-377 | The lost things in the table's order, then the offices with ids from 9999 on. |
| SessionTick.MoveDog | src/application.cpp:189-221 | Timers, place and speed of one dog after its part of the tick, its sweep, and the stop time the retirement test sees; a dog on the roads covers dt / 1000 times its speed or stops short without speed, and its sweep is its way. |
| SessionTick.MoveDogs | src/application.cpp:185-239 | The loop moves every dog once and collects the sweeps and the records in the order of the visits. |
| SessionTick.SweepsAreLegal | src/application.cpp:181-217 | Visiting every dog once, in any order, collects the sweep of each dog that moved exactly once. |
| SessionTick.RetireesAreLegal | src/application.cpp:230-236 | It also collects every dog whose stop time reached the limit exactly once, with its score and life time. |
| SessionTick.Deliver | src/application.cpp:246-252 | A visit empties the bag and adds, for each thing in it, the value that the map lists for its kind; nothing else changes. |
| SessionTick.PickUp | src/application.cpp:255-260 | A thing goes from the ground into a bag with room, or stays. |
| SessionTick.HandleEvents | src/application.cpp:244-262 | The event loop, in the order of the events. |
| SessionTick.RunSession | src/application.cpp:176-262 | Loot, moves and events of one session are those of a legal tick of its value. |
| Custody.TickConserves | src/application.cpp:176-269 | Whatever the draws and orders, after a tick all that was ever placed is, with multiplicity, on the ground, in bags, delivered or lost; with a positive limit scores and records still account for all deliveries. |
| Custody.RecordIsFinal | src/application.cpp:230-269 | With a positive limit the record saved for a retiring dog has the name, score and life time of its final state: no event of the tick changes its score or bag. |
| Records.OneForEachLeaver | src/application.cpp:230-236 | A tick saves exactly one record, behind the older ones, for every dog that leaves its session in it, and no other: with its name, its score before the events and its play time. |
| Custody.ExactlyOnePlace | src/model.cpp:342-355 | Every issued id is in exactly one of ground, bags, delivered and lost, under one kind; no other id is anywhere. |
| Custody.BagIdsUnique | src/application.cpp:255-259 | No bag slot of any dog repeats an id held anywhere else in the session. |
| Custody.ValueBalance | src/application.cpp:230-269 | The value placed is the value on the ground, in bags and lost, plus live and recorded scores; a thing is worth what the map lists for its kind. |
| ZeroLimit.RecordsFinalIffLimitPositive | src/application.cpp:230-252 | In all runs of the server all records carry the final state of their dogs iff the retirement time is positive. |
| ZeroLimit.RecordMissesScore | src/application.cpp:230-252 | A run with retirement time 0 in which a dog finds a thing and hands it in after its record was written. |
| ZeroLimit.BooksBalanceIffLimitPositive | src/application.cpp:173-280 | In all runs of the server the books of all sessions balance in all states iff the retirement time is positive. |
| Arrival.VisitScores | src/application.cpp:246-252 | An event with an id from 9999 on empties the dog's bag, and its score grows by the sum, over the bag, of the value that the map lists for each kind; nothing else changes. |
| Arrival.FindTakes | src/application.cpp:253-261 | Any other event moves its thing from the ground to the end of the bag if it is there and the bag is below its size, and else changes nothing. |
| Arrival.FirstWithRoomTakes | src/application.cpp:244-262 | The first event on an item whose dog has room at that moment takes it, for any order of ties, and the item does not come back in the tick. |
| Arrival.TakerIsEarliest | src/collision_detector.cpp:47-50 | In a sorted loop that event is the earliest of all that could have taken the item. |
| Arrival.LeftIffAllFull | src/application.cpp:253-261 | An item stays on the ground iff every event on it found its dog full. |
| Arrival.TickLeavesIff | src/application.cpp:242-262 | A tick leaves a thing with an id below 9999 on the ground iff every dog whose sweep met it was full at its event, and each such dog has an event. |
| Arrival.TickGives | src/application.cpp:242-262 | Otherwise the dog that has it came past it, had room at its event, and was the earliest of all that had; the event puts the thing into its bag. |
| Arrival.VisitsAreOffices | src/application.cpp:246-253 | While loot ids are below 9999 an event counts as a visit iff a sweep met an office, and as a find iff it met a lost thing. |
| Arrival.OfficeRangeStays | src/application.cpp:246-253 | A lost thing with an id from 9999 on is never picked up. |
| Arrival.TickStocked | src/model.cpp:521-527 | No bag is ever overfull, and everything on the ground or in a bag has a value to look up. |
| Journeys.TickMoves | src/application.cpp:189-221 | In a tick a dog that stays in its session covers dt / 1000 times its speed and keeps it, if one road holds both ends of that way, or else stops short and loses it. |
| Journeys.SweepsAreWays | src/application.cpp:205-217 | Every gatherer of a tick goes from where its dog was before the moves to where it is after them, with width 0.3. |
| Journeys.MeetsThingIff | src/application.cpp:242-245 | A dog has an event about a lost thing iff on its way in the tick the thing is at some point straight off to the side, within 0.3. |
| Journeys.MeetsOfficeIff | src/model.cpp:361-377 | It has an event with id 9999 + n iff the n-th office is at some point straight off to the side, within 0.55. |
| Journeys.EventTimeIsPassing | src/collision_detector.cpp:35-42 | The time of an event about a thing is the fraction of the dog's way at which the thing is straight off to the side. |
| Servers.FindSessionIsFirst | src/model.h:405-416 | The session found is the first on the map; none is found iff no session runs on it. |
| Requests.RequestTurns | src/api_request.cpp:239-271 | A move request whose token finds a dog turns it to the side it names (U north, D south, L west, R east) at its default speed, or stops it, or leaves it alone; every other dog, session, table and clock is what it was. |
| Requests.RequestWalks | src/application.cpp:193-208 | In the next tick that dog goes dt / 1000 times its default speed to that side, if the way is clear. |
| Requests.RequestJoins | src/application.cpp:104-134 | A join with an id not in use seats under it, in the map's session, a dog with the given name: at the spawn point, at rest, facing north, with the map's speed and bag capacity, an empty bag and score 0; no other dog changes, and the token leads to the new player. |
| Safety.RunSafe | src/application.cpp:104-375 | In every state of every run, restarts included, every dog stands on a road with at most one nonzero speed component, there is one session per map, and what is on disk is safe too. |
| Safety.RunSweepsSafely | src/application.cpp:185-221 | In every tick of every run: the gatherer given to collision detection for a dog, blocked or not, goes from its old place to its new one with width 0.3, lies in one road's rectangle and stops on the way to the point its speed asks for; there is one iff the dog means to move. |
| Agreement.TokenFindsDog | src/api_request.cpp:239-271 | With the indexes in agreement a token's session really contains its dog, and no other session does. |
| Agreement.JoinedIndexed | src/application.cpp:104-134 | A join with an id not in use keeps the indexes in agreement and its token finds the new dog. |
| Agreement.JoinedHijacks | src/application.cpp:9-14 | A join with an id in use breaks the agreement: the new token belongs to the player who has that id. |
| Agreement.AdvanceIsWithout | src/application.cpp:264-269 | From indexes in agreement a tick takes exactly the retired dogs out of the sessions, the player table and the token table. |
| Agreement.AdvanceIndexed | src/application.cpp:264-269 | After a tick the indexes still agree, there are no new players, and the id counter is what it was. |
| Agreement.RunAgrees | src/application.cpp:39-134 | Over every run of one process live dogs, player table and tokens agree, tokens and dogs are in bijection, all ids are below the counter, and the counter never falls. |
| Agreement.IdsNeverReused | src/application.cpp:25-27 | In such a run no id is given out twice. |
| Accounting.RunConserved | src/application.cpp:244-269 | Whatever the retirement time, in every state of every run all that was placed in a session, or restored into it, is on the ground, in bags, delivered or lost. |
| Accounting.RunBalanced | src/application.cpp:173-280 | With a positive limit scores and records, too, account for all deliveries in every state of every run. |
| Accounting.RunCustody | src/application.cpp:244-269 | From an empty server, whatever the retirement time, every id ever issued by a session is in exactly one place, and no other id is anywhere. |
| Accounting.RunRecords | src/application.cpp:230-236 | In every state of every run the scores that the sessions recorded add up to the total score of the records the process has saved. |
| Accounting.RunValue | src/application.cpp:230-269 | Over all sessions the value placed, on top of the scores restored, equals ground, bags, live scores, lost bags and the total score of the records the process has saved. |
| LootBound.RunLootBound | src/loot_generator.cpp:8-20 | In every run, restarts included, the things on a map's ground never outnumber the most dogs that have been on the map at one time. |
| LootIds.TickOnceIff | src/model.cpp:342-355 | A tick keeps every id in one place and gets all it draws onto the ground iff none of the ids it gives out is known to the session. |
| LootIds.RunInOnePlaceIff | src/model.cpp:342-396 | Over every run, restarts included, every id is in exactly one place in every state, and every draw gets onto the ground, iff no tick draws an id known to its session. |
| LootIds.FirstDrawAfterRestart | src/model.cpp:393-396 | The first draw after a restart has a new id iff neither the ground nor a bag of the saved session holds the number of things on the ground. |
| LootIds.ProcessInOnePlaceIff | src/model.cpp:342-355 | For one session over any part of one process: its ids stay in one place and its draws land iff no id issued on the way was known at the beginning. |
| LootIds.RestartedInOnePlaceIff | src/model.cpp:393-396 | For a restored session over its process: they do iff no id given out since the restart lay on the ground or in a bag of the saved session. |
| ReusedLootId.ThingDrawnTwice | src/model.cpp:393-396 | A run in which a thing is found and carried, the server restarted, and the next thing drawn gets the same id: it is on the ground and in a bag. |
| Retirement.StopTimeIsRest | src/model.cpp:567-574 | A dog's stop time is the game time since it last moved, joined or was restored. |
| Retirement.RestBegins | src/application.cpp:196-220 | Every dog present has such a beginning of its rest. |
| Retirement.RemovedExactly | src/application.cpp:196-269 | A tick removes a dog iff it stands still in it and has by then rested for the whole limit. |
| Retirement.PresentBelowLimit | src/application.cpp:230-269 | No dog present has rested for the limit, so the tick that removes a dog is the first to reach it. |
| Retirement.OnlyTicksRemove | src/application.cpp:264-269 | Only a tick or a restart removes a dog. |
| Retirement.LifeTimeIsPlayTime | src/application.cpp:195 | A dog's life time is the game time since it joined or was restored. |
| Retirement.PlayBegins | src/application.cpp:104-134 | Every dog present has such a beginning of its play. |
| Retirement.RecordedPlayTime | src/application.cpp:230-234 | The play time on a record is the game time from the dog's joining or restoring to the end of the tick that retires it. |
| Autosave.RunOnSchedule | src/application.cpp:272-278 | With a positive period, in every state of every run the next automatic backup is due one period after the last and has not been missed. |
| Autosave.LagBelowPeriod | src/application.cpp:272-278 | The game time since the last automatic backup of the process, or since its start, is less than the period. |
| Autosave.DiskIsRecent | src/application.cpp:272-278 | With a state file and a positive period, in every state of every run: if the process has written anything, the disk holds a backup of a state of it less than a period old; if not, the process itself is younger than that and the disk is as it found it. |
| Autosave.BackupIsRecent | src/application.cpp:275-325 | Once a process has backed up by itself, the disk always holds a backup of a state of that process less than a period old. |
| Autosave.BackupsApart | src/application.cpp:275-277 | Two automatic backups of one process are at least a period apart. |
| Autosave.BackupIsOnDisk | src/application.cpp:275-278 | With a state file an automatic backup leaves the state it was taken from on disk. |
| Autosave.ZeroPeriodNeverSaves | src/application.cpp:275 | With period 0 there is no automatic backup. |
| SaveRestore.DogRoundTrip | src/model_serialization.h:75-96 | A dog comes back as it was but for its timers, and saves again as it was saved. |
| SaveRestore.RoundTrip | src/application.cpp:288-375 | Restoring any backup of a server in agreement into an empty one gives back the sessions with dogs, the dogs but for timers, the loot, the player table and the token table; the id counter is the number of players. |
| AfterRestart.SaveAfterRestore | src/application.cpp:288-308 | The saved data without its dogless sessions is a backup of the restored state. |
| AfterRestart.SavesAlike | src/application.cpp:293-308 | Two backups of one state differ at most in the order of their dogs. |
| AfterRestart.SurvivingIndexed | src/application.cpp:347-373 | The indexes of a restored server agree. |
| AfterRestart.RestoredAgreesIff | src/application.cpp:29-31 | The restored id counter is above all ids in use iff they are below the number of players. |
| AfterRestart.JoinAfterRestart | src/application.cpp:104-134 | The first join after a restart has an id of its own iff the number of players is not an id in use; otherwise its token is another player's. |
| AfterRestart.RunIndexed | src/application.cpp:9-375 | Over every run with restarts the indexes agree as long as no join meets an id in use. |
| AfterRestart.RunIndexedIff | src/application.cpp:9-375 | Over every run with restarts the indexes agree in all states iff no join meets an id in use. |
| TokenLookup.RunFreshFinds | src/api_request.cpp:239-271 | Over every run with restarts, as long as no join meets an id in use, every token leads to its dog. |
| TokenLookup.RunRooted | src/application.cpp:9-375 | In every state of every run every player of the player table has its dog. |
| TokenLookup.RunFindsIff | src/application.cpp:68-80 | Over every run with restarts every token leads to a dog in all states iff no tick keeps a token whose dog it removes. |
| SecondTokens.TickFindsIff | src/application.cpp:264-269 | From a state in which all tokens lead to dogs a tick is sure to keep it so, for all scan orders, iff each player whose dog it removes has no more tokens than the id has removals, and none is empty. |
| SecondTokens.SecondTokenStays | src/application.cpp:68-80 | Where no two sessions have a dog of one id and no token is empty: they still do iff no dog that the tick removes has a second token. |
| StrandedToken.TokenOutlivesDog | src/model.cpp:298-300 | A run of eight actions that ends with a token whose session has no dog of its player's id. |
| ReusedPlayerId.PlayerIdTwice | src/application.cpp:29-31 | A run of two joins, a retirement, a save, a restart and a join after which the new token belongs to another player and the indexes disagree. |
| DiskHistory.RunDisk | src/application.cpp:288-325 | What is on disk in any state of any run was saved from a state of the run. |
| DiskHistory.RunOnMaps | src/application.cpp:327-375 | In every state of every run there is one session per map, on its configured map, for any configuration that lists its maps by their ids. |
| DiskHistory.RestoredFrom | src/application.cpp:347-371 | Every session that a restart brings back is one of the saved state: its dogs but for their timers and all that lay on its ground. |
| DiskHistory.RestoredTo | src/application.cpp:293-301 | Every saved session with dogs comes back; of one without dogs nothing does, its ground included. |
| LostGround.ThingLostAtRestart | src/application.cpp:296-301 | A run of four actions in which a thing on the ground at the save is gone after the restart. |
| DiskHistory.OpensWithWhatWasSaved | src/application.cpp:347-371 | A restored session has the dogs of the saved one but for their timers, and its ground; its loot id counter is the number of things on it; its books open with the saved ground, bags and scores. |
| PlayerTables.Players.Add | src/application.cpp:9-14 | The player is entered unless the id is in the table; the one in the table is returned. |
| PlayerTables.PlayerTokens.RemovePlayer | src/application.cpp:68-80 | The scan takes out one token of the player, if there is one and it is not the empty string. |
| PlayerTables.ScanIsExact | src/application.cpp:68-80 | With one token per player it takes out exactly that player's token. |
| ApplicationModel.Application.FindSession | src/model.h:405-416 | The loop finds the first session on the map. |
| ApplicationModel.Application.JoinGame | src/application.cpp:104-134 | A join makes of the objects what the server's join makes of their value, at a legal spawn point; if the id is not in use it seats one new dog with the name given and the map's speed and bag capacity, and changes no other. |
| ApplicationModel.Application.Steer | src/api_request.cpp:239-271 | A move request turns the dog that the token's player has in its session to the side it names, and nothing else; an unknown token is refused; a token whose dog is gone makes the lookup throw; in both cases nothing changes. |
| ApplicationModel.Application.SessionData | src/application.cpp:296-307 | One session's data is a backup of it: every dog once, and for every player one of its tokens. |
| ApplicationModel.Application.BackUpData | src/application.cpp:288-325 | With a state file a backup of the whole state is on disk; without one nothing changes. |
| ApplicationModel.Application.RestoreBackUpData | src/application.cpp:327-375 | The loops over sessions and dogs make the restored server of the saved data. |
| ApplicationModel.Application.RemoveRetired | src/application.cpp:264-269 | The removal loop takes the retired dogs out of the session, the token table and the player table. |
| ApplicationModel.Application.Tick | src/application.cpp:173-280 | The whole tick is a legal action of the server: sessions, tables, records, clock and automatic backup. |
| Serving.Start | src/main.cpp:152 | A new process on the records and the state file of the last one continues the run with a restart. |
| Serving.Serve | src/application.cpp:104-375 | Answering requests continues the run, up to the first whose lookup throws, if there is one; then every dog is on a road, custody is conserved, the books balance, ids are in one place as long as no known one is drawn, and as long as no join meets an id in use the indexes agree and no request throws. |
| Serving.ServeFirst | src/main.cpp:152 | A server started for the first time begins empty and answers every request; the indexes agree and every id of a lost thing that was given out is in exactly one place. |
| Raster.GameMap.PaintRoad | static/js/game_map.js:24-41 | The loop along one road marks exactly its tiles and their links, and writes in bounds. |
| Raster.GameMap.Load | static/js/game_map.js:5-42 | The raster has the extent of all roads and buildings and every tile is what all roads make of it. |
| Raster.ExtentIsLeast | static/js/game_map.js:5-18 | The extent holds both ends of every road and every building, and is no larger than any that does. |
| Raster.NeighboursAgree | static/js/game_map.js:34-39 | A tile's right flag is its right neighbour's left flag, its down flag the lower neighbour's up flag. |
| Raster.RasterAgrees | static/js/game_map.js:24-41 | A tile is a road tile iff the server's rectangles contain its point, and linked iff one rectangle covers the unit edge. |
| Raster.NoRoadOffRaster | static/js/game_map.js:15-22 | A grid point on a road of the server is on the raster. |

## Left out

- Floating point: coordinates, speeds and times of collisions are exact reals, so nothing is said about rounding, and the
  equality test that decides whether a dog stands still is exact.
- Integer widths: counters, ids, times and scores are unbounded; the cast of the life time to `int` in a record is not
  modelled. The one conversion modelled is that of a map's `int` bag capacity to the dog's `size_t`.
- The power function and the random number of the loot generator: together they are an arbitrary real that the code clamps.
- Boost R-tree internals: the index is a list of boxes whose query answers in any order. The segment tree beside it is
  never queried and is not modelled.
- `std::sort`: an insertion sort in the producer; the theorems hold for every time-sorted permutation.
- Token generation: a join takes its token as a parameter and requires it fresh and not empty.
- The exception that `GetScoreByIdx` throws on an unknown kind, and that of `GetDogById` in the event loop: these lookups
  are proved to succeed in every reachable state (`Arrival.TickStocked`, `Sessions.EventsNameMovers`). That of
  `GetDogById` for a token is modelled.
- The order of a session's records against its events: the source saves each record in the dog loop, the model writes
  them after the events. Nothing reads them in between, and no lookup in between fails.
- A player refers to its session by the map's id, not by sharing the object; there is one session per map in every
  reachable state (`Safety.RunSafe`).
- The state file is the list of saved sessions itself: the text archive, the temporary file and its renaming are left out.
- The database is a sequence of records: paging and identifiers of records are left out.
- HTTP, routing, JSON, logging, static files, command line, threads and strands, and the rest of the client's code.
- Dog getters and the unused setters, `ApplyTimeTick`, `FindByDogIdAndMapId` and the lists for responses: easy members.
- Serving.Start: every process is started with the configuration of the first; a change of roads, capacities, prices or
  limits between two processes is not modelled, so nothing is said about dogs restored onto other roads.
- Accounting.RunCustody: is about one process, because a restart re-seeds the id counter of lost things from their number
  and ids can then be given out twice; `Accounting.RunConserved` holds across restarts and `LootIds.RunInOnePlaceIff` says
  exactly when ids stay in one place.
- Accounting.RunValue: counts the records of the running process; those of earlier ones are in the database, and the
  scores of the dogs restored are what the process opens with.
- Agreement.RunAgrees: is about one process, because a restart re-seeds the player id counter; `AfterRestart.RunIndexed`
  holds across restarts.
- Autosave.BackupsApart: is about one process, because game time begins anew in the next.
