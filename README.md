# Endless-runner track generation, modelled in Dafny

This project models the track-generation core of an endless runner. Three
managers share one scene graph:

- **`PlatformManager`** keeps a window of platform slots ahead of the player:
  - it recycles the slot two behind the player;
  - it lays the next platform at a generation cursor, choosing each turn so
    that no turn kind repeats beyond the allowed streak;
  - it ramps up obstacle density over time;
  - it tops up the slots just ahead of the player.
- **`ObstacleManager`** keeps one FIFO pool per obstacle prototype. It resolves
  an instance back to its prototype by name, and its return-all sweep empties
  a platform's "Obstacles" container.
- **`CoinManager`** keeps one pool of coins and the list of coins handed out.
  It places coins on a platform either as a whole line at once or at random
  spots, always away from positions already occupied, and it keeps the score.

## How the model is built

- **The scene.** The engine's scene is a value `Scene.Graph`: every object has
  a name, tag, active flag, parent, local position and "alive" flag, and every
  object has an ordered list of children. The one mutable scene is held by
  `Scene.World`. Each engine call the managers make (`Instantiate`,
  `SetActive`, `SetParent`, `localPosition`, `Destroy`, `Find`) is a function
  on that value. `Scene.Consistent` is the scene invariant: child lists and
  parent links agree, there are no duplicate children, and ids stay below the
  next fresh id.
- **The managers.** Each manager is a `class` whose fields are the source's
  fields: `pools`, `coinPool`, `activeCoins`, `score`, `platformPools`,
  `activePlatforms`, the cursor, the streak and the ramp state. Each method
  either:
  - states the new state as a specification function of the old one, such as
    `Obstacles.Sweep`, `Coins.CoinSweep`, `Track.Taken` or `Track.Recycled`;
    the source's promises are then proved about that function as lemmas; or
  - states the property outright.
- **Loops.** `ReturnAllObstacles`, `ReturnAllCoins`, `InitializeCoinPool`,
  `Awake`, `CreatePool`, the attempt loops, the coin-line loops and `Start`
  are `while` loops with invariants.
- **Inputs from outside.** Randomness, the player's position and
  `Time.deltaTime` enter as explicit data:
  - `Placement.Candidate` is a lane and a fraction of the way along a range;
  - `Coins.CoinDraws`, `Track.ObstacleDraws` and `Platforms.Tick` bundle the
    draws of one call or frame;
  - a `nat` pick is reduced modulo the number of choices.
- **Engine geometry.** The engine's transform arithmetic is supplied as
  function-valued constants of `PlatformManager` (`place`, `distance`,
  `forwardOf`). `Vector3.Distance(a, b) < min` is modelled exactly, as a
  comparison of squared distances with a positive bound.

The model follows the code where the code departs from the design, and the
contracts below state those departures:

- **Straight platforms never get a pool.** The straight prototype's pool and
  its cases in `GetTurnType` and `GetDifferentTurnPrefab` are commented out in
  the source. So only the two turn prototypes are pooled. A recycled platform
  whose name does not resolve to a turn prototype is deactivated but not
  enqueued.
- **Unknown obstacles are never destroyed.** The obstacle manager's name
  resolution falls back to the first prototype. So once every prototype has a
  pool, a returned object is always kept, never destroyed
  (`Obstacles.ReleaseStepKept`).
- **Coins from a recycled platform go to an obstacle pool.**
  `ReturnAllObstacles` returns every child of a container, whatever its tag.
  When a platform is recycled, its coins therefore go into the first obstacle
  prototype's pool. The coin sweep that follows finds the container empty, so
  the coin manager's pool, active list and score do not change
  (`Platforms.PlatformManager.RecyclePlatformAtIndex`).
- **Line coins may crowd each other.** A coin line is checked only against the
  positions occupied before it. With the default settings, neighbouring coins
  of a line are closer than the minimum coin spacing
  (`Coins.LineCoinsCrowded`).

## Model

Predicates, and small helpers that only shift a sequence or a map or wrap one engine call (such as `Track.KeysKept`), have no row.

| member | source | states |
|---|---|---|
| Names.StripCloneName | Assets/Scripts/ObstacleManager.cs:68 | removing every "(Clone)" from a copy's name gives back a prototype name that holds none: no occurrence can straddle the join |
| Names.TrimClean | Assets/Scripts/PlatformManager.cs:352 | trimming leaves a name with no white space at either end unchanged |
| Names.BaseNameOfClone | Assets/Scripts/PlatformManager.cs:352 | cleaning a copy's name recovers the clean name of its prototype |
| Obstacles.FindByName | Assets/Scripts/ObstacleManager.cs:69-73 | the index found is the first prototype with that name; no index means no prototype has it |
| Obstacles.ResolvesToKnown | Assets/Scripts/ObstacleManager.cs:66-76 | resolution always yields a listed prototype: the one named by the cleaned name when one exists, the first prototype otherwise |
| Obstacles.ResolvesClone | Assets/Scripts/ObstacleManager.cs:66-76 | a copy of a clean-named prototype, not shadowed by an earlier prototype of the same name, resolves back to that prototype |
| Obstacles.AcquireReleaseRotates | Assets/Scripts/ObstacleManager.cs:32-55 | taking the head of a pool and returning it moves it to the tail; no other pool changes |
| Obstacles.ReleasedNodes | Assets/Scripts/ObstacleManager.cs:40-55 | a returned object ends inactive, under the manager when kept, detached and dead when destroyed; no other object changes |
| Obstacles.ReleasedKids | Assets/Scripts/ObstacleManager.cs:43 | a return takes the object out of its old container's child list and touches no other list but the manager's |
| Obstacles.ReleasedConsistent | Assets/Scripts/ObstacleManager.cs:40-55 | a return keeps the scene consistent |
| Obstacles.ManagedMoved | Assets/Scripts/ObstacleManager.cs:9 | another manager's change to the shared scene that removes no object keeps the obstacle manager's invariant |
| Obstacles.AcquiredManaged | Assets/Scripts/ObstacleManager.cs:32-38 | `GetObstacle` keeps the invariant and hands out an active object; the object is new exactly when the pool was empty; a non-empty pool loses exactly its head |
| Obstacles.AcquireRelease | Assets/Scripts/ObstacleManager.cs:32-55 | getting and then returning an object rotates a non-empty pool; an empty pool ends holding the new copy |
| Obstacles.ReleaseStepManaged | Assets/Scripts/ObstacleManager.cs:40-55 | a return keeps the invariant |
| Obstacles.ReleaseStepKept | Assets/Scripts/ObstacleManager.cs:45-49 | with every prototype pooled, a returned object is always kept: it is enqueued at the tail of its resolved prototype's pool and parked inactive under the manager |
| Obstacles.PoolsSoundMoved | Assets/Scripts/ObstacleManager.cs:9 | a scene change that leaves the manager's children alone keeps the pool invariant: every pooled object is an inactive child of the manager and sits at one place of one pool |
| Obstacles.AcquiredSound | Assets/Scripts/ObstacleManager.cs:32-38 | `GetObstacle` keeps the pool invariant, hands out an object that is in no pool, and changes no object but a child of the manager |
| Obstacles.PoolsSoundOne | Assets/Scripts/ObstacleManager.cs:36 | a change to one object that is in no pool keeps the pool invariant |
| Obstacles.ReleaseStepSound | Assets/Scripts/ObstacleManager.cs:40-55 | returning an object that is in no pool keeps the pool invariant and changes no object but a child of its old container |
| Obstacles.SweepSound | Assets/Scripts/ObstacleManager.cs:59-63 | returning distinct children of a container other than the manager, last first, keeps the pool invariant and changes only that container's children |
| Obstacles.SweepChildrenSound | Assets/Scripts/ObstacleManager.cs:57-64 | `ReturnAllObstacles` on any container but the manager's own keeps the pool invariant |
| Obstacles.Returned | Assets/Scripts/ObstacleManager.cs:59-62 | the objects that a sweep enqueues to one pool are drawn from the swept children |
| Obstacles.ReturnedNames | Assets/Scripts/ObstacleManager.cs:45 | which pool an object goes to depends only on its name |
| Obstacles.SweepPoolKeys | Assets/Scripts/ObstacleManager.cs:57-64 | a sweep never adds or removes a pool |
| Obstacles.SweepPools | Assets/Scripts/ObstacleManager.cs:57-64 | a sweep appends to each pool exactly the swept children that resolve to its prototype, last child first |
| Obstacles.SweepConsistent | Assets/Scripts/ObstacleManager.cs:57-64 | a sweep keeps the scene consistent and removes no object |
| Obstacles.SweepNodes | Assets/Scripts/ObstacleManager.cs:57-64 | each swept child ends as a single return leaves it; every other object is unchanged |
| Obstacles.SweepClears | Assets/Scripts/ObstacleManager.cs:57-64 | sweeping all children of a container leaves it empty; no other container except the manager's changes |
| Obstacles.SweepUnfold | Assets/Scripts/ObstacleManager.cs:59-63 | the sweep of the first `i` children begins by returning child `i - 1` |
| Obstacles.LastChild | Assets/Scripts/ObstacleManager.cs:61 | the last child of a container exists and names the container as its parent |
| Obstacles.ReleaseLastChild | Assets/Scripts/ObstacleManager.cs:59-63 | returning the last remaining child leaves the shorter prefix under the container |
| Obstacles.SweepBegin | Assets/Scripts/ObstacleManager.cs:59 | before the loop, the whole child list remains to be swept |
| Obstacles.SweepEnd | Assets/Scripts/ObstacleManager.cs:59 | when the loop stops, the state is the complete sweep of the original child list |
| Obstacles.SweepLast | Assets/Scripts/ObstacleManager.cs:59-63 | one loop turn keeps the loop on course towards the sweep of the original list |
| Obstacles.Built | Assets/Scripts/ObstacleManager.cs:13-24 | building pools keeps the manager's object and never lowers the next fresh id |
| Obstacles.BuiltKeeps | Assets/Scripts/ObstacleManager.cs:13-24 | building pools keeps the scene consistent and changes no existing object |
| Obstacles.BuiltPoolsShape | Assets/Scripts/ObstacleManager.cs:13-24 | there is exactly one pool per listed prototype, each of `poolSizePerType` objects |
| Obstacles.BuiltBelow | Assets/Scripts/ObstacleManager.cs:18 | every id stays below the next fresh id while pools are built |
| Obstacles.BuiltPoolsFresh | Assets/Scripts/ObstacleManager.cs:16-22 | every pooled object is a new inactive copy of its prototype, parented to the manager |
| Obstacles.BuiltManaged | Assets/Scripts/ObstacleManager.cs:11-25 | after `Awake` every prototype has a pool and the invariant holds |
| Obstacles.BuiltOnce | Assets/Scripts/ObstacleManager.cs:13-24 | the pools `Awake` builds hold each new copy at one place of one pool |
| Obstacles.BuiltSound | Assets/Scripts/ObstacleManager.cs:11-25 | after `Awake` the pool invariant holds |
| Obstacles.BuiltHolder | Assets/Scripts/ObstacleManager.cs:20 | the manager's object stays in the scene while pools are built |
| Obstacles.FillPools | Assets/Scripts/ObstacleManager.cs:13-24 | the loop leaves the scene and pools as the pool-building functions describe |
| Obstacles.ObstacleManager.constructor | Assets/Scripts/ObstacleManager.cs:6-9 | a fresh manager object, no pools, the given prototypes and pool size; an empty prototype list is accepted, and only the calls that need a prototype require one |
| Obstacles.ObstacleManager.Awake | Assets/Scripts/ObstacleManager.cs:11-25 | `Awake` builds a pool for every prototype, none for an empty list, and establishes the invariant and the pool invariant |
| Obstacles.ObstacleManager.GetRandomObstaclePrefab | Assets/Scripts/ObstacleManager.cs:27-30 | the result is a listed prototype; an in-range draw selects that prototype; the list must not be empty, since the source indexes it |
| Obstacles.ObstacleManager.GetObstacle | Assets/Scripts/ObstacleManager.cs:32-38 | hands out the pool's head or a new copy, active, and updates the state as `Acquired` describes; under the pool invariant it keeps it, and the object is then in no pool |
| Obstacles.ObstacleManager.ReturnObstacle | Assets/Scripts/ObstacleManager.cs:40-55 | deactivates the object, parks it under the manager, then enqueues it in its resolved pool or destroys it; returning an object in no pool keeps the pool invariant |
| Obstacles.ObstacleManager.ReturnAllObstacles | Assets/Scripts/ObstacleManager.cs:57-64 | the new state is the sweep of the container's original children, last to first, whatever their tags; a pool invariant that held before still holds; an empty container needs no prototype, a non-empty one needs one for name resolution (ObstacleManager.cs:75) |
| Obstacles.ObstacleManager.ReturnChildren | Assets/Scripts/ObstacleManager.cs:59-63 | the loop, started on the whole child list, ends with the sweep of that list complete |
| Obstacles.ObstacleManager.ReturnLastChild | Assets/Scripts/ObstacleManager.cs:61-62 | one loop turn keeps the loop on course |
| Coins.CoinsMoved | Assets/Scripts/CoinManager.cs:22-23 | another manager's change to the shared scene that removes no object keeps the coin manager's invariant |
| Coins.CoinsSoundMoved | Assets/Scripts/CoinManager.cs:22-23 | a scene change that leaves the manager's children alone keeps the pool invariant: every pooled coin is an inactive child of the manager, no coin is pooled twice or handed out twice, and none is both pooled and handed out |
| Coins.TakeManaged | Assets/Scripts/CoinManager.cs:45-50 | `GetCoin` keeps the invariant; the coin is new exactly when the pool was empty; no existing object changes |
| Coins.TakeSound | Assets/Scripts/CoinManager.cs:45-50 | `GetCoin` keeps the pool invariant, the coin handed out is no longer pooled, and no existing object changes |
| Coins.ReturnStepManaged | Assets/Scripts/CoinManager.cs:52-61 | a return changes only that coin: it ends inactive under the manager |
| Coins.ReturnStepKids | Assets/Scripts/CoinManager.cs:55 | a return takes the coin out of its container's child list |
| Coins.ReturnStepSound | Assets/Scripts/CoinManager.cs:52-61 | returning a coin that is not pooled keeps the pool invariant and changes no object but a child of its old container |
| Coins.TakeThenReturn | Assets/Scripts/CoinManager.cs:45-61 | under the pool invariant, taking and returning a coin moves it from the head of the pool to the tail (a new coin just joins the pool), restores the active list and raises the score by `coinValue` |
| Coins.SameTagsCoins | Assets/Scripts/CoinManager.cs:68 | which children count as coins depends only on their tags |
| Coins.CoinSweepManaged | Assets/Scripts/CoinManager.cs:63-73 | a coin sweep keeps the invariant and removes or retags no object |
| Coins.CoinSweepSound | Assets/Scripts/CoinManager.cs:65-72 | returning the coins among distinct children of a container other than the manager keeps the pool invariant and changes only that container's children |
| Coins.CoinSweepChildrenSound | Assets/Scripts/CoinManager.cs:63-73 | `ReturnAllCoins` on any container but the manager's own keeps the pool invariant |
| Coins.SweepStepTags | Assets/Scripts/CoinManager.cs:70 | one return retags nothing, so the rest of the sweep sees the same coins |
| Coins.CoinSweepScore | Assets/Scripts/CoinManager.cs:59 | a sweep raises the score by `coinValue` once per coin among the children, and only for coins |
| Coins.ScoreStep | Assets/Scripts/CoinManager.cs:68-71 | one step adds `coinValue` for a coin and nothing otherwise |
| Coins.CoinSweepPool | Assets/Scripts/CoinManager.cs:57 | a sweep enqueues exactly the coins among the children, last child first |
| Coins.CoinSweepKids | Assets/Scripts/CoinManager.cs:63-73 | a sweep leaves exactly the non-coin children, in order |
| Coins.CoinSweepKidsCoin | Assets/Scripts/CoinManager.cs:68-71 | the non-coin children are left in order when the last child swept is a coin |
| Coins.CoinSweepKidsOther | Assets/Scripts/CoinManager.cs:68 | the non-coin children are left in order when the last child swept is not a coin |
| Coins.KidsStepCoin | Assets/Scripts/CoinManager.cs:70 | a coin at the end of the swept part leaves its container's list |
| Coins.CoinSweepStep | Assets/Scripts/CoinManager.cs:65-72 | one loop turn: the child at `i - 1` is still in place, and the rest of the sweep is what remains |
| Coins.CoinSweepStepCoin | Assets/Scripts/CoinManager.cs:70 | returning the coin at `i - 1` keeps the children before it in place |
| Coins.PlacedManaged | Assets/Scripts/CoinManager.cs:148-154 | a placed coin is active, under the container, at the position, and last in the active list; no other object and not the score changes |
| Coins.PlacedAllManaged | Assets/Scripts/CoinManager.cs:115-120 | placing a run of coins hands out one coin per position, keeps the earlier active coins and keeps the score |
| Coins.PlacedAllSnoc | Assets/Scripts/CoinManager.cs:115-120 | placing one more position is one more single placement |
| Coins.PlacedSound | Assets/Scripts/CoinManager.cs:148-154 | placing a coin keeps the pool invariant and changes no object but a child of the manager |
| Coins.PlacedAllSound | Assets/Scripts/CoinManager.cs:115-120 | placing a run of coins keeps the pool invariant and changes no object but children of the manager |
| Coins.CoinPoolSound | Assets/Scripts/CoinManager.cs:34-43 | `InitializeCoinPool` keeps the pool invariant and changes no existing object |
| Coins.LinePlan | Assets/Scripts/CoinManager.cs:93-98 | a coin line has `coinsPerLine` positions |
| Coins.RandomPlan | Assets/Scripts/CoinManager.cs:133-135 | each attempt's position is its draw's lane, the coin height, and a z between 1 and the length less 1 |
| Coins.LineAtomic | Assets/Scripts/CoinManager.cs:100-120 | a line is placed whole or not at all; a placed line is in one lane at coin height, `coinLineSpacing` apart, each coin clear of occupied positions; a refused line has a crowded coin |
| Coins.LineCoinsCrowded | Assets/Scripts/CoinManager.cs:102-105 | with the defaults, neighbouring coins of a line are closer than `minCoinSpacing`, because a line is checked only against earlier positions |
| Coins.RandomBounded | Assets/Scripts/CoinManager.cs:123-146 | random coins place at most ten and at most the drawn target (at most `maxCoinsPerPlatform`), none when that target is not positive; each is a candidate position clear of everything occupied when accepted |
| Coins.CoinManager.constructor | Assets/Scripts/CoinManager.cs:11-27 | a fresh manager object with an empty pool, no active coins and a score of 0 |
| Coins.CoinManager.InitializeCoinPool | Assets/Scripts/CoinManager.cs:34-43 | `poolSize` new inactive coins under the manager, enqueued in creation order; the active list and the score are kept |
| Coins.CoinManager.GetCoin | Assets/Scripts/CoinManager.cs:45-50 | hands out the pool's head or a new coin and appends it to the active list; under the pool invariant it keeps it, and the coin is then no longer pooled |
| Coins.CoinManager.ReturnCoin | Assets/Scripts/CoinManager.cs:52-61 | deactivates the coin, parks it under the manager, removes it from the active list, enqueues it and adds `coinValue` to the score; returning a coin that is not pooled keeps the pool invariant |
| Coins.CoinManager.ReturnAllCoins | Assets/Scripts/CoinManager.cs:63-73 | the new state is the coin sweep of the container's original children; a pool invariant that held before still holds |
| Coins.CoinManager.IsPositionTooClose | Assets/Scripts/CoinManager.cs:156-164 | true exactly when some existing position is closer than the minimum distance |
| Coins.CoinManager.SpawnCoinAtPosition | Assets/Scripts/CoinManager.cs:148-154 | the state after one coin placement at the position |
| Coins.CoinManager.SpawnCoinLine | Assets/Scripts/CoinManager.cs:91-121 | the occupancy list grows by the accepted line (all of it or none), and exactly those coins are placed |
| Coins.CoinManager.LineIsFree | Assets/Scripts/CoinManager.cs:101-110 | true exactly when no position of the line is too close to an occupied one |
| Coins.CoinManager.PlaceAll | Assets/Scripts/CoinManager.cs:115-120 | a coin at each position, in order, each also added to the occupancy list |
| Coins.CoinManager.SpawnRandomCoins | Assets/Scripts/CoinManager.cs:123-146 | the coins placed, and the occupancy list, are the greedy acceptance of the candidates up to the drawn target |
| Coins.CoinManager.TryCoin | Assets/Scripts/CoinManager.cs:133-142 | one attempt places a coin exactly when its position is clear |
| Coins.CoinManager.SpawnCoinsOnPlatform | Assets/Scripts/CoinManager.cs:75-89 | nothing above the spawn chance; otherwise a line or random coins, and exactly the planned coins are placed |
| Placement.LerpBetween | Assets/Scripts/PlatformManager.cs:299 | a float draw lies within its range |
| Placement.ObstacleLanes | Assets/Scripts/PlatformManager.cs:281-294 | each kind of platform has three lanes |
| Placement.ObstaclePosInSpan | Assets/Scripts/PlatformManager.cs:276-301 | an obstacle candidate is on a lane, at height 0, in the middle 40% of a curve or 1 unit in from a straight's ends |
| Placement.ObstaclePositions | Assets/Scripts/PlatformManager.cs:296-301 | one candidate position per draw |
| Placement.FirstFree | Assets/Scripts/PlatformManager.cs:296-328 | first fit: the index found is clear and every earlier one is crowded; none found means all are crowded |
| Placement.LinePositions | Assets/Scripts/CoinManager.cs:102-104 | coin `i` of a line is `i` spacings along from the start, in one lane at one height |
| Placement.CoinTarget | Assets/Scripts/CoinManager.cs:128 | the integer draw `Random.Range(1, maxCoinsPerPlatform + 1)`: from 1 to the maximum for a positive maximum, 1 for a zero maximum, and between `maxCoinsPerPlatform + 2` and 1 (so possibly 0 or negative) for a negative one |
| Placement.CoinTargetCovers | Assets/Scripts/CoinManager.cs:128 | every value of that range is drawn for some draw |
| Placement.GreedyFrom | Assets/Scripts/CoinManager.cs:131-145 | one step of greedy acceptance: a candidate is taken exactly when it is clear |
| Placement.GreedyAdvance | Assets/Scripts/CoinManager.cs:131-145 | one attempt keeps a greedy loop on course |
| Placement.GreedyDone | Assets/Scripts/CoinManager.cs:131 | a loop out of attempts or of coins to place has accepted the whole answer |
| Placement.GreedyStart | Assets/Scripts/CoinManager.cs:128-129 | the loop starts on course |
| Placement.GreedyBounded | Assets/Scripts/CoinManager.cs:131-145 | greedy acceptance takes at most one per candidate and at most the target, and only candidates |
| Placement.GreedySpaced | Assets/Scripts/CoinManager.cs:137-140 | each accepted position is clear of everything occupied, including earlier acceptances |
| Placement.GreedyKeepsSpacing | Assets/Scripts/CoinManager.cs:137-140 | a well-spaced occupancy list stays well spaced once the accepted coins are added |
| Turns.WeightedPrefab | Assets/Scripts/PlatformManager.cs:331-336 | a draw below 6 gives the left prototype, otherwise the right |
| Turns.TurnTypeOfPrefabs | Assets/Scripts/PlatformManager.cs:360-366 | with distinct prototypes, Left and Right classify exactly the two turn prototypes, and anything else is Straight |
| Turns.GetDifferentTurnPrefab | Assets/Scripts/PlatformManager.cs:368-384 | the replacement is a turn prototype, and with distinct prototypes its turn differs from the one avoided |
| Turns.StreakBounded | Assets/Scripts/PlatformManager.cs:158-186 | the streak rule keeps every Left/Right streak at most `maxSame` long and never emits Straight |
| Turns.Alternates | Assets/Scripts/PlatformManager.cs:161-168 | with a streak of one, every emitted turn differs from the previous one, even when forced |
| Turns.Emitted | Assets/Scripts/PlatformManager.cs:156-193 | one turn per successful request |
| Turns.EmittedAlternate | Assets/Scripts/PlatformManager.cs:156-193 | every sequence of emitted turns alternates strictly, starting away from the last turn emitted |
| Turns.ForcedRightsAlternate | Assets/Scripts/PlatformManager.cs:67-70 | the two forced right turns of `Start` come out Right, then Left |
| Turns.PrefabOfClone | Assets/Scripts/PlatformManager.cs:350-358 | a copy of a turn prototype resolves back to that prototype |
| Scene.PositionsOf | Assets/Scripts/PlatformManager.cs:386-397 | collects no more positions than there are children |
| Scene.CountTagged | Assets/Scripts/PlatformManager.cs:244-249 | the count is at most the number of children |
| Scene.WithParent | Assets/Scripts/ObstacleManager.cs:43 | `SetParent` gives the object its new parent and creates or removes no object |
| Scene.Destroyed | Assets/Scripts/ObstacleManager.cs:53 | a destroyed object is detached, inactive and dead, and its id stays taken |
| Scene.ParentConsistent | Assets/Scripts/ObstacleManager.cs:43 | `SetParent` keeps the scene consistent |
| Scene.DestroyedConsistent | Assets/Scripts/ObstacleManager.cs:53 | `Destroy` keeps the scene consistent |
| Scene.CopiesKeys | Assets/Scripts/CoinManager.cs:36-42 | a pool build adds exactly the next `n` ids |
| Scene.CopiesNew | Assets/Scripts/CoinManager.cs:38-40 | each new id is an inactive copy under the manager |
| Scene.CopiesOld | Assets/Scripts/CoinManager.cs:36-42 | a pool build changes no existing object |
| Scene.CopiesKids | Assets/Scripts/CoinManager.cs:40 | the new copies join the end of the manager's children, in creation order |
| Scene.CopiesConsistent | Assets/Scripts/CoinManager.cs:36-42 | a pool build keeps the scene consistent |
| Scene.PoolCopies | Assets/Scripts/CoinManager.cs:38-40 | every new id lies in the fresh range and is an inactive copy parented to the manager |
| Seqs.RemoveFirst | Assets/Scripts/CoinManager.cs:56 | removing an item absent from the list changes nothing; removing a present one shortens the list by one and adds nothing |
| Scene.BuildPool | Assets/Scripts/CoinManager.cs:36-42 | the loop enqueues its new copies in creation order and leaves the scene as the pool build |
| Track.Recycle | Assets/Scripts/PlatformManager.cs:137-147 | nulls exactly the given slot in place; an index out of range changes nothing |
| Track.LookbehindAppend | Assets/Scripts/PlatformManager.cs:103 | appending behind the player keeps one slot of lookbehind |
| Track.RecycleBehind | Assets/Scripts/PlatformManager.cs:88-95 | recycling two behind the new index keeps one slot of lookbehind |
| Track.FullWindow | Assets/Scripts/PlatformManager.cs:65-75 | with the player on the first slot, every slot is occupied and knows its index |
| Track.AdvanceWindow | Assets/Scripts/PlatformManager.cs:86-107 | an advance keeps slot indices, grows the list by at most one, nulls exactly the slot two behind, keeps the lookbehind and keeps neighbours joined |
| Track.RampStep | Assets/Scripts/PlatformManager.cs:110-127 | the start flag never drops, spawning starts once the timer reaches the delay, each full ramp time raises the maximum by one up to the ceiling, and the timer resets on each transition |
| Track.NextIndexOk | Assets/Scripts/PlatformManager.cs:88 | moving the player's index on keeps the invariant |
| Track.RampOk | Assets/Scripts/PlatformManager.cs:110-127 | a ramp step keeps the invariant |
| Track.ObstacleSpot | Assets/Scripts/PlatformManager.cs:296-328 | the spot found is the first clear candidate; none is found exactly when every candidate is crowded |
| Track.ObstacleSpotInSpan | Assets/Scripts/PlatformManager.cs:276-301 | an accepted spot lies on a lane, at height 0, inside the span for its kind |
| Track.FittedNodes | Assets/Scripts/PlatformManager.cs:320-323 | a fitted obstacle is active at its position under the container; no other object changes |
| Track.FittedKids | Assets/Scripts/PlatformManager.cs:320 | the obstacle joins the end of the container's children unless it was already there |
| Track.Instantiated | Assets/Scripts/PlatformManager.cs:171 | instantiation creates the copy |
| Track.InstantiatedShape | Assets/Scripts/PlatformManager.cs:171 | a new copy is a fresh object named after its prototype, with a fresh empty container; no existing object changes |
| Track.StockStepShape | Assets/Scripts/PlatformManager.cs:343-345 | one pool copy is a fresh inactive object; no existing object changes |
| Track.StockedScene | Assets/Scripts/PlatformManager.cs:338-348 | `CreatePool` keeps the scene consistent and changes no existing object |
| Track.StockedPool | Assets/Scripts/PlatformManager.cs:338-348 | `CreatePool` enqueues `n` more distinct inactive copies of the prototype, all with new ids |
| Track.StockStepKeys | Assets/Scripts/PlatformManager.cs:343 | one copy brings exactly its own id and its container's id into use |
| Track.StockStepStable | Assets/Scripts/PlatformManager.cs:343-345 | one copy keeps the manager's bookkeeping of copies |
| Track.StockedStable | Assets/Scripts/PlatformManager.cs:338-348 | a whole pool keeps the bookkeeping, and every queued copy is known |
| Track.StockedKeeps | Assets/Scripts/PlatformManager.cs:338-348 | building a pool only adds copies: every known copy keeps its record |
| Track.StableMoved | Assets/Scripts/PlatformManager.cs:46 | a scene change that removes no object keeps the bookkeeping |
| Track.StableAdd | Assets/Scripts/PlatformManager.cs:171 | recording a fresh, housed copy keeps the bookkeeping |
| Track.StableRecord | Assets/Scripts/PlatformManager.cs:61-62 | recording a queue of known copies keeps the bookkeeping |
| Track.CopiesSoundMoved | Assets/Scripts/PlatformManager.cs:45-46 | a scene change that leaves every root object alone keeps the copies' invariant: each queued copy is an inactive root object at one place of one queue, and each slot's copy is an active root object filling that slot alone |
| Track.StockedRoots | Assets/Scripts/PlatformManager.cs:338-348 | `CreatePool` enqueues distinct inactive root copies, each already queued or new, and changes no existing object |
| Track.TrackOkMoved | Assets/Scripts/PlatformManager.cs:46-56 | a scene that only grew keeps the manager's invariant |
| Track.StockedOk | Assets/Scripts/PlatformManager.cs:61-62 | creating a turn prototype's pool keeps the invariant |
| Track.AwakeOk | Assets/Scripts/PlatformManager.cs:58-63 | both pools of `Awake` keep the invariant |
| Track.StockedSound | Assets/Scripts/PlatformManager.cs:61-62 | storing a freshly created pool keeps the copies' invariant and changes no existing object |
| Track.AwakeSound | Assets/Scripts/PlatformManager.cs:58-63 | both pools of `Awake` keep the copies' invariant |
| Track.Taken | Assets/Scripts/PlatformManager.cs:156-193 | `GetNextPlatform` keeps the slots, cursor, index and ramp; a record, when returned, holds the drawn copy |
| Track.TakenScene | Assets/Scripts/PlatformManager.cs:170-172 | the copy handed out is in the scene |
| Track.TakenAlternates | Assets/Scripts/PlatformManager.cs:161-186 | with distinct prototypes, every platform handed out is a turn other than the previous one and the streak count stays within its bound; a null result leaves the streak alone |
| Track.TakenSource | Assets/Scripts/PlatformManager.cs:170-192 | the copy is the pool's head, which leaves the queue, or a new recorded copy when the pool was empty; a null result means exactly that the copy has no "EndPoint" |
| Track.TakenSceneShape | Assets/Scripts/PlatformManager.cs:170-172 | the copy handed out is inactive; it is new exactly when the pool was empty, and then named after its prototype with a container; no other object changes |
| Track.TakenKeys | Assets/Scripts/PlatformManager.cs:171 | which ids are kept and which are new |
| Track.TrackOkKept | Assets/Scripts/PlatformManager.cs:156-193 | a change that only adds copies and keeps slots, index and ramp keeps the invariant |
| Track.TakenOk | Assets/Scripts/PlatformManager.cs:156-193 | `GetNextPlatform` keeps the invariant |
| Track.TakenConsistent | Assets/Scripts/PlatformManager.cs:170-172 | the scene stays consistent and keeps every object |
| Track.TakenStable | Assets/Scripts/PlatformManager.cs:170-172 | dequeuing a known copy, or recording a fresh housed one, keeps the bookkeeping |
| Track.TakenSound | Assets/Scripts/PlatformManager.cs:156-193 | `GetNextPlatform` keeps the copies' invariant and changes only root objects; the copy handed out is an inactive root object, in no queue and no slot |
| Track.AppendedOk | Assets/Scripts/PlatformManager.cs:195-208 | laying a copy keeps the invariant: the new platform starts where the previous one ends, facing its end's direction, and the cursor moves to its end |
| Track.AppendChained | Assets/Scripts/PlatformManager.cs:101-103 | a platform appended at its own index that joins up keeps the slots indexed and chained |
| Track.AppendKnown | Assets/Scripts/PlatformManager.cs:206-207 | the appended record names the copy's own container |
| Track.LaidSceneShape | Assets/Scripts/PlatformManager.cs:197-198 | laying changes only the copy, moving it to the cursor and activating it |
| Track.NextLaidOk | Assets/Scripts/PlatformManager.cs:98-103 | fetching and laying keeps the invariant, the cursor at the last platform's end, and every object |
| Track.NextLaidShape | Assets/Scripts/PlatformManager.cs:98-103 | the slot list grows by exactly the record laid, at its own index, starting at the old cursor and facing its direction |
| Track.LaidOk | Assets/Scripts/PlatformManager.cs:101-103 | laying a known copy at its own index keeps the invariant; the copy is in the scene, with a container exactly when its prototype has one |
| Track.LaidSound | Assets/Scripts/PlatformManager.cs:195-208 | laying such a copy in a new last slot keeps the copies' invariant and changes only that copy |
| Track.NextLaidSound | Assets/Scripts/PlatformManager.cs:98-103 | fetching and laying the next platform keeps the copies' invariant and changes only root objects |
| Track.NextLaidKept | Assets/Scripts/PlatformManager.cs:98-103 | fetching and laying keeps the invariant, the copies' invariant, the cursor at the end and every object, and the laid copy is in the scene, with its container when its prototype has one, always when both have one |
| Track.RecycledOk | Assets/Scripts/PlatformManager.cs:135-147 | recycling keeps the invariant, the cursor, the index and the ramp, and removes no object |
| Track.RecycledScene | Assets/Scripts/PlatformManager.cs:141 | recycling keeps the scene consistent |
| Track.RecycledBooks | Assets/Scripts/PlatformManager.cs:140-147 | recycling keeps the bookkeeping and nulls exactly that slot |
| Track.NulledOk | Assets/Scripts/PlatformManager.cs:147 | nulling one slot keeps the invariant |
| Track.RecycledHome | Assets/Scripts/PlatformManager.cs:140-147 | a recycled turn copy goes back, inactive, to the tail of its own prototype's pool, and its slot is null |
| Track.RecycledSound | Assets/Scripts/PlatformManager.cs:140-147 | recycling keeps the copies' invariant and changes only root objects |
| Track.AcquiredRest | Assets/Scripts/PlatformManager.cs:317 | getting an obstacle changes no other object and no container's children |
| Track.PlacedObstacleShape | Assets/Scripts/PlatformManager.cs:316-323 | placing an obstacle keeps the obstacle manager's invariant; the obstacle is active at the position under the container; nothing else changes |
| Track.PlacedObstacleSound | Assets/Scripts/PlatformManager.cs:316-323 | placing an obstacle keeps the obstacle pool invariant and changes only one child of the obstacle manager |
| Track.LandingPlaces | Assets/Scripts/PlatformManager.cs:260-329 | an obstacle attempt either changes nothing or places one picked obstacle at the first position clear of the passed list and of the container's obstacles |
| Track.LandingInSpan | Assets/Scripts/PlatformManager.cs:276-301 | a placed obstacle lies on a lane of its platform's kind, inside its span |
| Track.LandingSound | Assets/Scripts/PlatformManager.cs:260-329 | one obstacle attempt keeps the obstacle pool invariant and changes only children of the obstacle manager |
| Track.CountSnoc | Assets/Scripts/PlatformManager.cs:244-249 | one more child adds one to the count exactly when it has the tag |
| Track.CountSameTags | Assets/Scripts/PlatformManager.cs:247 | the count depends only on the children's tags |
| Track.LandingCount | Assets/Scripts/PlatformManager.cs:260-329 | one attempt adds at most one obstacle to the container |
| Track.KidsCount | Assets/Scripts/PlatformManager.cs:320 | adding at most one child adds at most one to the count |
| Track.TopUpBounded | Assets/Scripts/PlatformManager.cs:251-255 | a top-up never takes a container past the current maximum |
| Platforms.InstantiatePlatform | Assets/Scripts/PlatformManager.cs:171 | the copy's id and its container as instantiation describes |
| Platforms.FitObstacle | Assets/Scripts/PlatformManager.cs:320-323 | the obstacle is fitted under the container at the position |
| Platforms.ChildPositions | Assets/Scripts/PlatformManager.cs:267-274 | the loop collects the positions of the children with the tag, in order |
| Platforms.CountObstacles | Assets/Scripts/PlatformManager.cs:244-249 | the loop counts the children tagged "Obstacle" |
| Platforms.Crowded | Assets/Scripts/PlatformManager.cs:304-312 | true exactly when some occupied position is too close |
| Platforms.FindSpot | Assets/Scripts/PlatformManager.cs:296-328 | the attempts loop finds the first clear candidate |
| Platforms.LandObstacle | Assets/Scripts/PlatformManager.cs:264-328 | one obstacle attempt on a container, as `ObstacleLanding` describes |
| Platforms.FirstFreeAt | Assets/Scripts/PlatformManager.cs:296-328 | a clear position with only crowded ones before it is the one first fit finds |
| Platforms.ManagersMoved | Assets/Scripts/PlatformManager.cs:135-154 | a consistent scene change that removes no object and leaves both managers' children alone keeps both managers' invariants and pool invariants |
| Platforms.NextLaidManaged | Assets/Scripts/PlatformManager.cs:98-103 | laying the next platform keeps the track's invariant, the copies' invariant, the cursor at the end, and both managers' invariants and pool invariants |
| Platforms.PlatformManager.constructor | Assets/Scripts/PlatformManager.cs:41-56 | no pools, no slots, the cursor at the origin, the index at 0, no streak, and the ramp not started with maximum 1; the invariant holds whether or not the turn prototypes have an "Obstacles" child and whether or not there is an obstacle prototype |
| Platforms.PlatformManager.CreatePool | Assets/Scripts/PlatformManager.cs:338-348 | `poolSizePerType` copies, each deactivated and enqueued in creation order |
| Platforms.PlatformManager.Awake | Assets/Scripts/PlatformManager.cs:58-63 | pools for the left and then the right prototype, none for the straight one; the invariant holds |
| Platforms.PlatformManager.SettlePrefab | Assets/Scripts/PlatformManager.cs:158-168 | the prototype settled against the streak, and its turn |
| Platforms.PlatformManager.DrawCopy | Assets/Scripts/PlatformManager.cs:170-172 | the pool's head or a new copy, deactivated |
| Platforms.PlatformManager.GetNextPlatform | Assets/Scripts/PlatformManager.cs:156-193 | the new state, record and scene are those `Track.Taken` and `Track.TakenScene` describe |
| Platforms.PlatformManager.SpawnPlatform | Assets/Scripts/PlatformManager.cs:195-208 | the platform is placed at the cursor with its start, direction and container recorded; the cursor moves to its end |
| Platforms.PlatformManager.Unslot | Assets/Scripts/PlatformManager.cs:140-147 | the copy is deactivated and enqueued by its resolved prototype, and the slot is nulled |
| Platforms.PlatformManager.RecycleSlot | Assets/Scripts/PlatformManager.cs:140-153 | the null-container test included, an in-range recycle keeps the whole invariant, including every pool invariant, as `Track.Recycled` and the two sweeps describe |
| Platforms.PlatformManager.UnslottedOk | Assets/Scripts/PlatformManager.cs:140-147 | the state `Track.Recycled` leaves satisfies the whole invariant |
| Platforms.PlatformManager.ClearedValid | Assets/Scripts/PlatformManager.cs:149-153 | sweeping a container other than the managers' keeps the whole invariant |
| Platforms.PlatformManager.RecyclePlatformAtIndex | Assets/Scripts/PlatformManager.cs:135-154 | out of range, nothing changes; otherwise the slot is nulled, the copy returns to its pool, and, when the copy has a container, the container's children all go to obstacle pools, leaving the coin manager's state untouched; a copy without a container is only returned |
| Platforms.PlatformManager.ClearContainer | Assets/Scripts/PlatformManager.cs:149-153 | the obstacle sweep takes every child; the coin sweep then finds nothing |
| Platforms.PlatformManager.SpawnObstacleOnPlatform | Assets/Scripts/PlatformManager.cs:260-329 | one obstacle attempt, as `ObstacleLanding` describes, keeping every manager's invariant |
| Platforms.PlatformManager.SpawnContentOnPlatform | Assets/Scripts/PlatformManager.cs:210-224 | nothing before spawning starts; then one obstacle attempt followed by the coin plan, kept clear of what the attempt left occupied |
| Platforms.PlatformManager.GetOccupiedPositions | Assets/Scripts/PlatformManager.cs:386-397 | the positions of all the container's children, whatever their tag |
| Platforms.PlatformManager.MaintainSlot | Assets/Scripts/PlatformManager.cs:230-256 | a null or full slot is left alone; an empty container gets its content; a container under the maximum gets one more attempt and stays at or under it |
| Platforms.PlatformManager.TopUpSlot | Assets/Scripts/PlatformManager.cs:251-255 | one obstacle attempt checked against all the container's children |
| Platforms.PlatformManager.SpawnObstaclesOnActivePlatforms | Assets/Scripts/PlatformManager.cs:226-258 | every manager's invariant is kept and no object is removed |
| Platforms.PlatformManager.LayNext | Assets/Scripts/PlatformManager.cs:98-103 | the copy handed out is laid in a new last slot at its own index, joining the previous platform; the invariant and the cursor's position are kept; a record comes back whenever both turn prototypes have an "EndPoint", and the streak then records the settled prototype's turn; with two distinct, cleanly named turn prototypes that turn differs from the previous one and, for a request of the right turn, is Right unless the previous turn was |
| Track.NextLaidTurn | Assets/Scripts/PlatformManager.cs:156-193 | fetching and laying returns a record whenever both turn prototypes have an "EndPoint"; the streak records the settled prototype's turn; with two distinct, cleanly named turn prototypes that turn is never Straight and never the previous turn, and a request for the right turn gives Right unless the previous turn was Right |
| Platforms.PlatformManager.NextAndLay | Assets/Scripts/PlatformManager.cs:98-103 | the state, scene and record as `Track.NextLaid` describes |
| Platforms.PlatformManager.LaidValid | Assets/Scripts/PlatformManager.cs:98-103 | the state `Track.NextLaid` leaves satisfies the whole invariant, with the cursor at the end of the track |
| Platforms.PlatformManager.LayPlatform | Assets/Scripts/PlatformManager.cs:102-103 | the laid record fills a new last slot and the cursor moves to its end |
| Platforms.PlatformManager.AdvancePlatform | Assets/Scripts/PlatformManager.cs:88-107 | the index moves on, the slot two behind is recycled, and a laid platform starts at the old cursor |
| Platforms.PlatformManager.MoveOn | Assets/Scripts/PlatformManager.cs:88-95 | the index moves on and the slot two behind it is nulled |
| Platforms.PlatformManager.StepIndex | Assets/Scripts/PlatformManager.cs:88 | moving the index on keeps the invariant and the cursor at the end |
| Platforms.PlatformManager.SpawnNext | Assets/Scripts/PlatformManager.cs:98-107 | the slot list grows by exactly the platform laid, which starts at the old cursor |
| Platforms.PlatformManager.RampUp | Assets/Scripts/PlatformManager.cs:110-127 | the ramp advances by one `RampStep` |
| Platforms.PlatformManager.Update | Assets/Scripts/PlatformManager.cs:77-133 | an index off the list changes nothing; otherwise the window advances exactly when the player has passed the threshold, the ramp steps, and the window and invariants are kept |
| Platforms.PlatformManager.AdvanceIfPassed | Assets/Scripts/PlatformManager.cs:82-108 | the advance happens exactly when the player is more than `passThreshold` along the current platform's direction |
| Platforms.PlatformManager.RampAndMaintain | Assets/Scripts/PlatformManager.cs:110-132 | the ramp steps, and the maintenance pass keeps the manager's own state |
| Platforms.PlatformManager.Start | Assets/Scripts/PlatformManager.cs:65-75 | at most `platformsAhead` platforms, exactly that many when both turn prototypes have an "EndPoint", each slot occupied at its own index, with the window established; with two distinct, cleanly named turn prototypes the turns recorded for the slots alternate, and from a fresh streak the track opens Right, then Left |

## Left out

- Rotation is not modelled for obstacles: the rotation facing the player
  (`LookRotation`) and its assignment to the placed obstacle
  (`Assets/Scripts/PlatformManager.cs:318-322`) are left out, and
  `Platforms.FitObstacle` and `Track.Fitted` set only the parent, local position and
  active flag. For platforms, `SetPositionAndRotation` is modelled only
  through the cursor: the "EndPoint" world pose (`place`), the forward
  direction (`forwardOf`) and `Vector3.Distance` (`distance`) are supplied
  as function parameters. `InverseTransformPoint` of a direct child's
  position is taken to be its local position.
- Floating point: float draws and positions are exact reals, and
  `Random.Range(min, max)` with `min > max` is a draw between the two in the
  given order.
- Randomness, the player's transform and `Time.deltaTime` are inputs, and a
  frame's draws are supplied in advance as a `Tick`.
- `Debug.Log`, `Debug.LogWarning`, `Debug.LogError` and the score text of
  `CoinManager.ReturnCoin` are output only and not modelled.
- The `coinManager != null` test in `SpawnContentOnPlatform` is left out: a
  coin manager is always present in the model.
- Platforms.PlatformManager.Start: the source dereferences a null record when
  a prototype has no "EndPoint"; the model's loop stops at the first null
  record instead. No null record comes back when both turn prototypes have an
  "EndPoint", and then exactly `platformsAhead` platforms are laid.
- Platforms.PlatformManager.RecyclePlatformAtIndex requires an obstacle
  prototype, or an empty container, when the recycled copy has a container
  (`Sweepable`). The source sweeps through `GetPrefabFromInstance`, which
  indexes the prototype list (`Assets/Scripts/ObstacleManager.cs:75`), and
  an empty list fails there.
- Platforms.PlatformManager.RecyclePlatformAtIndex: a null slot in range is
  dereferenced by the source, so callers may not pass one. `Update` never
  passes one, because of the one-slot lookbehind.
- Platforms.PlatformManager.MoveOn calls `RecyclePlatformAtIndex` without
  the range test of `Update`, because the callee repeats that test.
- Platforms.PlatformManager.SpawnObstaclesOnActivePlatforms states only that
  the invariants hold and no object is removed. The effect of each slot is
  stated by `MaintainSlot`, and the composed effect of three slots is not.
- Platforms.PlatformManager.Update states the window, the index, the slot list
  and the ramp. The content it places is stated only through `MaintainSlot`
  and `SpawnContentOnPlatform`.
- `Destroy` destroys only the object itself, not its children
  (`Scene.Destroyed`). The managers call it only for a returned obstacle whose
  prototype has no pool, which cannot happen once `Awake` has built every pool.
- Copies of a platform are not conserved, and the copies' invariant
  (`Track.CopiesSound`) says only that no copy is in two places, not that
  every copy is in one. `GetNextPlatform` drops a copy whose prototype has no
  "EndPoint": the copy has already left its queue (or was just made) and is
  neither queued nor slotted (`Assets/Scripts/PlatformManager.cs:170-180`). A
  recycled copy that does not resolve to a turn prototype is deactivated but
  not queued (`Assets/Scripts/PlatformManager.cs:142-146`).
- Coins are not conserved across the two managers, and no invariant spans
  both of them. When a platform is recycled, `ReturnAllObstacles` takes its
  coins too, so they join the first obstacle prototype's pool while the coin
  manager still lists them as handed out
  (`Assets/Scripts/PlatformManager.cs:149-153`,
  `Platforms.PlatformManager.RecyclePlatformAtIndex`). Each manager's own pool
  invariant still holds.
- Obstacles.ObstacleManager.ReturnObstacle keeps the pool invariant only for
  an object that is in no pool. The source enqueues a second return of the
  same object a second time, which breaks the invariant; the managers never
  do this.
- Coins.CoinManager.ReturnCoin keeps the pool invariant only for a coin that
  is not pooled, for the same reason.
- Coins.CoinManager.ReturnCoin: the score is an unbounded integer. The
  source's `int score += coinValue` (`Assets/Scripts/CoinManager.cs:59`)
  wraps at 2^31, and the model does not capture that wrap-around.
- Platforms.PlatformManager.Update requires an obstacle prototype and an
  "Obstacles" child on both turn prototypes (`Equipped`) once obstacle
  spawning has started or starts in that frame. The source fails there only
  when it reaches a missing container
  (`Assets/Scripts/PlatformManager.cs:234, 245, 267`) or draws an obstacle
  prototype (`Assets/Scripts/ObstacleManager.cs:29`). Exceptions are not
  modelled, so the whole configuration is required. Before that point
  `Update` works without either; it still needs the recycled slot's
  container to be empty when there is no obstacle prototype (`Sweepable`).
  Containers stay empty until spawning starts, but the model does not carry
  that fact.
- Platforms.PlatformManager.SpawnObstacleOnPlatform, `Platforms.LandObstacle`,
  `TopUpSlot`, `MaintainSlot` and `SpawnObstaclesOnActivePlatforms` require
  an obstacle prototype even when no candidate spot is free. The source
  draws a prototype only once a spot is found
  (`Assets/Scripts/PlatformManager.cs:316`).
- `maxObstaclesAtStart` is never read by the source: the maximum starts at
  the literal 1, and the model does the same.
- The straight prototype's pool is commented out in the source, and so is
  absent from the model.
- The rest of the repository is not part of this model: player movement,
  camera, UI and the coin pickup trigger.
