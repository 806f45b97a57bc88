/**
 * `PlatformManager`: the list of platform slots the player runs along, the
 * per-prototype platform pools, the generation cursor where the next
 * platform goes, the turn streak, the difficulty ramp of obstacles, and the
 * placement of obstacles (and, through the coin manager, coins) on the
 * platforms ahead of the player.
 */
module Track {
  import opened Options
  import opened Seqs
  import opened Geometry
  import opened Scene
  import opened Turns
  import opened Placement
  import Names
  import Obstacles
  import Coins

  /** The serialized settings of the component. */
  datatype TrackSettings = TrackSettings(
    poolSizePerType: nat,
    platformsAhead: nat,
    passThreshold: real,
    obstacleSpawnDelay: real,
    minObstacleSpacing: real,
    maxObstaclesAtStart: int,
    maxObstaclesMaxDifficulty: int,
    difficultyRampTime: real)

  /** The values the component is configured with by default. */
  const Defaults := TrackSettings(5, 5, 10.0, 3.0, 3.0, 1, 5, 20.0)

  /** A private field that is never reassigned: at most one turn of a kind in a row. */
  const MaxConsecutiveSameTurns := 1

  /**
   * A slot's record: the platform object, its "EndPoint" pose (the child's
   * local pose until the platform is placed, its world pose from then on),
   * where the platform starts and which way it faces, its slot index, and
   * its "Obstacles" container.
   */
  datatype Platform = Platform(obj: Id, endPoint: Pose, startPosition: Pos, forwardDirection: Pos,
                               index: int, container: Option<Id>)

  /** What `transform.Find` sees in a platform copy: the prototype it was made from and its "Obstacles" child. */
  datatype Instance = Instance(prefab: PlatformPrefab, container: Option<Id>)

  // ---------------------------------------------------------------------
  // The slot window
  // ---------------------------------------------------------------------

  /** `activePlatforms`: a recycled slot holds null and is never removed. */
  type Slots = seq<Option<Platform>>

  /** Every occupied slot knows its own position. */
  predicate Indexed(slots: Slots) {
    forall i :: 0 <= i < |slots| && slots[i].Some? ==> slots[i].value.index == i
  }

  /** One platform of lookbehind: exactly the slots more than one behind the player's are recycled. */
  predicate Lookbehind(slots: Slots, idx: int) {
    0 <= idx <= |slots| && forall i :: 0 <= i < |slots| ==> (slots[i].None? <==> i < idx - 1)
  }

  /** Neighbouring platforms join up: each starts where the one before it ends, facing the way that one's end faces. */
  predicate Chained(forwardOf: Rot -> Pos, slots: Slots) {
    forall i :: 0 < i < |slots| && slots[i - 1].Some? && slots[i].Some? ==>
      && slots[i].value.startPosition == slots[i - 1].value.endPoint.position
      && slots[i].value.forwardDirection == forwardOf(slots[i - 1].value.endPoint.rotation)
  }

  /** `RecyclePlatformAtIndex` on the slot list: the slot is nulled in place; an index out of range changes nothing. */
  function Recycle(slots: Slots, index: int): (r: Slots)
    ensures |r| == |slots|
    ensures forall i :: 0 <= i < |slots| ==> r[i] == if i == index then None else slots[i]
  {
    if 0 <= index < |slots| then slots[index := None] else slots
  }

  /** The slot list after one advance of `Update` to index `idx`: two behind it recycled, then the new platform, if any, appended. */
  function Advance(slots: Slots, idx: int, added: Option<Platform>): Slots {
    Recycle(slots, idx - 2) + (if added.Some? then [added] else [])
  }

  /** Appending a platform behind the player's index keeps the lookbehind. */
  lemma LookbehindAppend(slots: Slots, idx: int, q: Platform)
    requires Lookbehind(slots, idx)
    ensures Lookbehind(slots + [Some(q)], idx)
  {
    var r := slots + [Some(q)];
    assert forall i :: 0 <= i < |slots| ==> r[i] == slots[i];
  }

  /** Recycling the slot two behind the player's next index keeps the lookbehind at that index. */
  lemma RecycleBehind(slots: Slots, idx: int)
    requires Lookbehind(slots, idx) && idx < |slots|
    ensures Lookbehind(Recycle(slots, idx - 1), idx + 1)
  {
  }

  /** With the player at the first slot, the lookbehind leaves every slot occupied. */
  lemma FullWindow(slots: Slots)
    requires Lookbehind(slots, 0) && Indexed(slots)
    ensures forall i :: 0 <= i < |slots| ==> slots[i].Some? && slots[i].value.index == i
  {
  }

  /**
   * An advance keeps every slot at its position and its index, grows the
   * list by at most one, nulls exactly the slot two behind the new index
   * (the only slot it changes) and keeps one platform of lookbehind.
   */
  lemma AdvanceWindow(forwardOf: Rot -> Pos, slots: Slots, idx: int, added: Option<Platform>)
    requires Indexed(slots) && Lookbehind(slots, idx) && idx < |slots|
    requires added.Some? ==> added.value.index == |slots|
    ensures var r := Advance(slots, idx + 1, added);
            && Indexed(r) && Lookbehind(r, idx + 1)
            && |r| == |slots| + (if added.Some? then 1 else 0)
            && (idx >= 1 ==> slots[idx - 1].Some? && r[idx - 1].None?)
            && (forall i :: 0 <= i < |slots| && i != idx - 1 ==> r[i] == slots[i])
            && (added.Some? ==> r[|slots|] == added)
    ensures Chained(forwardOf, slots) && (added.Some? && slots[|slots| - 1].Some? ==>
              added.value.startPosition == slots[|slots| - 1].value.endPoint.position &&
              added.value.forwardDirection == forwardOf(slots[|slots| - 1].value.endPoint.rotation))
            ==> Chained(forwardOf, Advance(slots, idx + 1, added))
  {
    var r := Advance(slots, idx + 1, added);
    var n := |slots|;
    assert forall i :: 0 <= i < n ==> r[i] == Recycle(slots, idx - 1)[i];
  }

  // ---------------------------------------------------------------------
  // The difficulty ramp
  // ---------------------------------------------------------------------

  /** `hasStartedSpawningObstacles`, `obstacleTimer` and `currentMaxObstacles`. */
  datatype Ramp = Ramp(started: bool, timer: real, maxObstacles: int)

  function Min(a: int, b: int): int {
    if a <= b then a else b
  }

  /**
   * The ramp part of one `Update`: before the start the timer runs up to the
   * spawn delay and then starts obstacles; after it, every full ramp time
   * raises the maximum by one, up to the ceiling. The flag never drops, the
   * timer either runs on or resets to zero on a transition, and a maximum
   * between one and the ceiling never falls and never passes the ceiling.
   */
  function RampStep(r: Ramp, dt: real, delay: real, rampTime: real, ceiling: int): (r': Ramp)
    ensures r.started ==> r'.started
    ensures !r.started ==> r'.maxObstacles == r.maxObstacles && (r'.started <==> r.timer + dt >= delay)
    ensures r'.timer == 0.0 || r'.timer == r.timer + dt
    ensures r'.started != r.started || r'.maxObstacles != r.maxObstacles ==> r'.timer == 0.0
    ensures r.started && r.timer + dt >= rampTime ==> r'.maxObstacles == Min(r.maxObstacles + 1, ceiling)
    ensures r.started && r.timer + dt < rampTime ==> r'.maxObstacles == r.maxObstacles
    ensures 1 <= r.maxObstacles <= ceiling ==> r.maxObstacles <= r'.maxObstacles <= ceiling
  {
    var t := r.timer + dt;
    if !r.started then
      if t >= delay then Ramp(true, 0.0, r.maxObstacles) else r.(timer := t)
    else if t >= rampTime then Ramp(true, 0.0, Min(r.maxObstacles + 1, ceiling))
    else r.(timer := t)
  }

  /** `Update`'s advance test: the player is more than the threshold past the start of their platform, along its facing. */
  predicate Passed(s: TrackState, player: Pos, threshold: real)
    requires 0 <= s.index < |s.slots| && s.slots[s.index].Some?
  {
    var current := s.slots[s.index].value;
    Dot(Sub(player, current.startPosition), current.forwardDirection) > threshold
  }

  /** Moving the player's index on keeps the invariant and the cursor's window. */
  lemma NextIndexOk(ps: PrefabSet, forwardOf: Rot -> Pos, holders: set<Id>, ceiling: int, s: TrackState, g: Graph)
    requires TrackOk(ps, forwardOf, holders, ceiling, s, g) && CursorAtEnd(s)
    ensures TrackOk(ps, forwardOf, holders, ceiling, s.(index := s.index + 1), g) && CursorAtEnd(s.(index := s.index + 1))
  {
  }

  /** A ramp step keeps the invariant: only the obstacle maximum is constrained, and the step keeps it in range. */
  lemma RampOk(ps: PrefabSet, forwardOf: Rot -> Pos, holders: set<Id>, s: TrackState, g: Graph,
               dt: real, delay: real, rampTime: real, ceiling: int)
    requires TrackOk(ps, forwardOf, holders, ceiling, s, g)
    ensures TrackOk(ps, forwardOf, holders, ceiling, s.(ramp := RampStep(s.ramp, dt, delay, rampTime, ceiling)), g)
  {
  }

  // ---------------------------------------------------------------------
  // Where one obstacle goes
  // ---------------------------------------------------------------------

  /**
   * The attempts of `SpawnObstacleOnPlatform`: the first candidate whose
   * position clears every occupied one, or none when all ten are too close.
   */
  function ObstacleSpot(turn: TurnType, length: real, occ: seq<Pos>, cands: seq<Candidate>, min: real): (r: Option<Pos>)
    ensures r.Some? ==> !TooClose(r.value, occ, min)
    ensures r.Some? ==> exists k :: 0 <= k < |cands| && r.value == ObstaclePos(turn, length, cands[k])
                                    && forall j :: 0 <= j < k ==> TooClose(ObstaclePos(turn, length, cands[j]), occ, min)
    ensures r.None? <==> forall k :: 0 <= k < |cands| ==> TooClose(ObstaclePos(turn, length, cands[k]), occ, min)
  {
    var ps := ObstaclePositions(turn, length, cands);
    match FirstFree(ps, occ, min)
    case None => None
    case Some(k) => Some(ps[k])
  }

  /** An accepted spot lies on one of the platform's lanes, at height 0, within the span for its kind of platform. */
  lemma ObstacleSpotInSpan(turn: TurnType, length: real, occ: seq<Pos>, cands: seq<Candidate>, min: real)
    requires length >= 0.0 && (turn == Straight ==> length >= 2.0)
    ensures var r := ObstacleSpot(turn, length, occ, cands, min);
            r.Some? ==> && r.value.x in ObstacleLanes(turn) && r.value.y == 0.0
                        && (turn != Straight ==> 0.3 * length <= r.value.z <= 0.7 * length)
                        && (turn == Straight ==> 1.0 <= r.value.z <= length - 1.0)
  {
    var ps := ObstaclePositions(turn, length, cands);
    var f := FirstFree(ps, occ, min);
    if f.Some? {
      ObstaclePosInSpan(turn, length, cands[f.value]);
    }
  }

  /** Moving obstacle `x` under container `c` at local position `pos` and activating it. */
  function Fitted(g: Graph, x: Id, c: Id, pos: Pos): Graph
    requires x in g.nodes && c in g.nodes
  {
    WithActive(WithLocal(WithParent(g, x, Some(c)), x, pos), x, true)
  }

  /** A fitted obstacle is active at `pos` under `c`; no other object changes. */
  lemma FittedNodes(g: Graph, x: Id, c: Id, pos: Pos)
    requires Consistent(g) && x in g.nodes && c in g.nodes
    ensures var r := Fitted(g, x, c, pos);
            && Consistent(r) && r.nodes.Keys == g.nodes.Keys && r.next == g.next
            && r.nodes[x] == g.nodes[x].(parent := Some(c), local := pos, active := true)
            && (forall y :: y in g.nodes && y != x ==> r.nodes[y] == g.nodes[y])
  {
    ParentConsistent(g, x, Some(c));
    var g1 := WithParent(g, x, Some(c));
    LocalConsistent(g1, x, pos);
    ActiveConsistent(WithLocal(g1, x, pos), x, true);
  }

  /** What `c` held before stays, in order; an obstacle that was elsewhere joins the end, one already there stays put. */
  lemma FittedKids(g: Graph, x: Id, c: Id, pos: Pos)
    requires x in g.nodes && c in g.nodes && c in g.kids
    ensures var r := Fitted(g, x, c, pos);
            && c in r.kids && r.kids[c][..|g.kids[c]|] == g.kids[c]
            && (g.nodes[x].parent != Some(c) ==> r.kids[c] == g.kids[c] + [x])
            && (g.nodes[x].parent == Some(c) ==> r.kids[c] == g.kids[c])
  {
    var from := g.nodes[x].parent;
    if from != Some(c) {
      var k1 := Detach(g.kids, x, from);
      DetachAt(g.kids, x, from, c);
      assert k1[c] == g.kids[c];
      assert (g.kids[c] + [x])[..|g.kids[c]|] == g.kids[c];
    }
  }

  /** `GetRandomObstaclePrefab`, `GetObstacle`, then the fitting: the obstacle part of one placement. */
  function PlacedObstacle(s: Obstacles.PoolState, prefab: Obstacles.Prefab, c: Id, pos: Pos): Obstacles.PoolState
    requires prefab in s.pools && (s.pools[prefab] != [] ==> s.pools[prefab][0] in s.g.nodes)
  {
    var a := Obstacles.Acquired(s, prefab);
    var x := Obstacles.AcquiredId(s, prefab);
    if x in a.g.nodes && c in a.g.nodes then a.(g := Fitted(a.g, x, c, pos)) else a
  }

  // ---------------------------------------------------------------------
  // Platform copies and their pools
  // ---------------------------------------------------------------------

  /** The "Obstacles" child a new copy of `prefab` gets, when the prototype has one. */
  function ContainerOf(next: Id, prefab: PlatformPrefab): Option<Id> {
    if prefab.hasContainer then Some(next + 1) else None
  }

  /** `Instantiate(prefab)` of a platform: a new root object named after the prototype, with its "Obstacles" child. */
  function Instantiated(g: Graph, prefab: PlatformPrefab): (r: Graph)
    ensures g.next in r.nodes
  {
    var g1 := Spawn(g, Names.CloneName(prefab.name), Untagged);
    if prefab.hasContainer then WithParent(Spawn(g1, "Obstacles", Untagged), g1.next, Some(g.next)) else g1
  }

  /**
   * A new copy is a fresh object named after the prototype; its container
   * is a fresh, empty child of it; nothing that existed changes.
   */
  lemma InstantiatedShape(g: Graph, prefab: PlatformPrefab)
    requires Consistent(g)
    ensures var r := Instantiated(g, prefab);
            && Consistent(r) && g.next !in g.nodes && g.next < r.next
            && r.nodes[g.next].name == Names.CloneName(prefab.name) && r.nodes[g.next].parent == None
            && (forall y :: y in g.nodes ==> y in r.nodes && r.nodes[y] == g.nodes[y])
            && (ContainerOf(g.next, prefab).Some? ==>
                  var c := ContainerOf(g.next, prefab).value;
                  c in r.nodes && c !in g.nodes && c != g.next && r.kids[c] == [] && r.nodes[c].parent == Some(g.next))
  {
    var g1 := Spawn(g, Names.CloneName(prefab.name), Untagged);
    SpawnConsistent(g, Names.CloneName(prefab.name), Untagged);
    if prefab.hasContainer {
      SpawnConsistent(g1, "Obstacles", Untagged);
      ParentConsistent(Spawn(g1, "Obstacles", Untagged), g1.next, Some(g.next));
    }
  }

  /** A pooled copy and its result: the scene, the copies' structure, and the queue. */
  datatype Stock = Stock(g: Graph, instances: map<Id, Instance>, pool: seq<Id>)

  /** One turn of `CreatePool`'s loop: instantiate, deactivate, enqueue. */
  function StockStep(st: Stock, prefab: PlatformPrefab): Stock {
    var x := st.g.next;
    Stock(WithActive(Instantiated(st.g, prefab), x, false),
          st.instances[x := Instance(prefab, ContainerOf(st.g.next, prefab))],
          st.pool + [x])
  }

  /** `CreatePool(prefab)` from `st` on: `n` more copies, each deactivated and enqueued in creation order. */
  function Stocked(st: Stock, prefab: PlatformPrefab, n: nat): Stock
    decreases n
  {
    if n == 0 then st else Stocked(StockStep(st, prefab), prefab, n - 1)
  }

  /** One turn adds an inactive copy with a fresh id and changes no existing object. */
  lemma StockStepShape(st: Stock, prefab: PlatformPrefab)
    requires Consistent(st.g)
    ensures var r, x := StockStep(st, prefab), st.g.next;
            && Consistent(r.g) && x !in st.g.nodes && x < r.g.next
            && x in r.g.nodes && !r.g.nodes[x].active && r.g.nodes[x].parent == None
            && (forall y :: y in st.g.nodes ==> y in r.g.nodes && r.g.nodes[y] == st.g.nodes[y])
  {
    InstantiatedShape(st.g, prefab);
    ActiveConsistent(Instantiated(st.g, prefab), st.g.next, false);
  }

  /** Stocking keeps the scene consistent and changes no existing object. */
  lemma {:induction false} StockedScene(st: Stock, prefab: PlatformPrefab, n: nat)
    requires Consistent(st.g)
    ensures var r := Stocked(st, prefab, n);
            && Consistent(r.g) && st.g.next <= r.g.next
            && (forall y :: y in st.g.nodes ==> y in r.g.nodes && r.g.nodes[y] == st.g.nodes[y])
    decreases n
  {
    if n > 0 {
      StockStepShape(st, prefab);
      StockedScene(StockStep(st, prefab), prefab, n - 1);
    }
  }

  /** A queue of distinct inactive copies of `prefab`, all in the scene. */
  ghost predicate PoolOf(st: Stock, prefab: PlatformPrefab) {
    && NoDup(st.pool)
    && forall x :: x in st.pool ==> x in st.g.nodes && !st.g.nodes[x].active && x in st.instances && st.instances[x].prefab == prefab
  }

  /** Stocking enqueues `n` more distinct inactive copies of the prototype, all with ids not in use before. */
  lemma {:induction false} StockedPool(st: Stock, prefab: PlatformPrefab, n: nat)
    requires Consistent(st.g) && PoolOf(st, prefab)
    ensures var r := Stocked(st, prefab, n);
            && PoolOf(r, prefab) && |r.pool| == |st.pool| + n
            && (forall x :: x in r.pool ==> x in st.pool || st.g.next <= x)
    decreases n
  {
    if n > 0 {
      var x := st.g.next;
      var st1 := StockStep(st, prefab);
      StockStepShape(st, prefab);
      assert x !in st.pool;
      NoDupAppend(st.pool, x);
      assert PoolOf(st1, prefab);
      StockedPool(st1, prefab, n - 1);
    }
  }

  /**
   * The manager's own bookkeeping of copies, over the ids `keys` in use:
   * every known copy is in the scene and housed, and every queued id is a known copy.
   */
  ghost predicate Stable(ps: PrefabSet, keys: set<Id>, instances: map<Id, Instance>, pools: map<PlatformPrefab, seq<Id>>, holders: set<Id>) {
    && (forall o :: o in instances ==> o in keys && Housed(ps, keys, instances[o], holders))
    && (forall p, i :: p in pools && 0 <= i < |pools[p]| ==> pools[p][i] in instances)
  }

  /** Every id of the queue `pool` is a known copy. */
  ghost predicate Queued(pool: seq<Id>, instances: map<Id, Instance>) {
    forall i :: 0 <= i < |pool| ==> pool[i] in instances
  }

  /**
   * A copy of a turn prototype that has an "Obstacles" child exactly when
   * its prototype has one, that child being in the scene and neither
   * manager's object.
   */
  ghost predicate Housed(ps: PrefabSet, keys: set<Id>, i: Instance, holders: set<Id>) {
    && (i.prefab == ps.left || i.prefab == ps.right)
    && (i.container.Some? <==> i.prefab.hasContainer)
    && (i.container.Some? ==> i.container.value in keys && i.container.value !in holders)
  }

  /**
   * The record `q` is of a known copy in the scene `g`, with a container
   * exactly when the copy's prototype has one, and that container in the
   * scene too.
   */
  ghost predicate LaidIn(q: Platform, instances: map<Id, Instance>, g: Graph) {
    && q.obj in g.nodes && q.obj in instances
    && (q.container.Some? <==> instances[q.obj].prefab.hasContainer)
    && (q.container.Some? ==> q.container.value in g.nodes)
  }

  /** An update of the scene that removes no object keeps the bookkeeping. */
  lemma StableMoved(ps: PrefabSet, keys: set<Id>, keys': set<Id>, instances: map<Id, Instance>, pools: map<PlatformPrefab, seq<Id>>, holders: set<Id>)
    requires Stable(ps, keys, instances, pools, holders) && keys <= keys'
    ensures Stable(ps, keys', instances, pools, holders)
  {
  }

  /** Recording a housed copy under a fresh id, in a scene that only grew, keeps the bookkeeping. */
  lemma StableAdd(ps: PrefabSet, keys: set<Id>, keys': set<Id>, instances: map<Id, Instance>, pools: map<PlatformPrefab, seq<Id>>,
                  holders: set<Id>, x: Id, i: Instance)
    requires Stable(ps, keys, instances, pools, holders) && keys <= keys' && x in keys' && Housed(ps, keys', i, holders)
    ensures Stable(ps, keys', instances[x := i], pools, holders)
  {
    forall o | o in instances[x := i] ensures o in keys' && Housed(ps, keys', instances[x := i][o], holders) {
      if o != x {
        assert instances[x := i][o] == instances[o];
      }
    }
  }

  /** The ids one turn brings into use: the copy's, and its container's when it has one. */
  lemma StockStepKeys(st: Stock, prefab: PlatformPrefab)
    ensures var r, x := StockStep(st, prefab), st.g.next;
            && r.g.nodes.Keys == st.g.nodes.Keys + {x} + (if prefab.hasContainer then {x + 1} else {})
            && r.g.next == x + (if prefab.hasContainer then 2 else 1)
            && ContainerOf(st.g.next, prefab) == (if prefab.hasContainer then Some(x + 1) else None)
  {
  }

  /** One turn of a turn prototype keeps the bookkeeping, the new copy included. */
  lemma StockStepStable(ps: PrefabSet, st: Stock, pools: map<PlatformPrefab, seq<Id>>, holders: set<Id>, prefab: PlatformPrefab)
    requires Stable(ps, st.g.nodes.Keys, st.instances, pools, holders) && holders <= st.g.nodes.Keys
    requires prefab == ps.left || prefab == ps.right
    requires forall y :: y in st.g.nodes ==> y < st.g.next
    requires Queued(st.pool, st.instances)
    ensures var r := StockStep(st, prefab);
            && Stable(ps, r.g.nodes.Keys, r.instances, pools, holders) && holders <= r.g.nodes.Keys
            && Queued(r.pool, r.instances)
            && (forall y :: y in r.g.nodes ==> y < r.g.next)
  {
    var x := st.g.next;
    StockStepKeys(st, prefab);
    var r := StockStep(st, prefab);
    var i := Instance(prefab, ContainerOf(st.g.next, prefab));
    assert Housed(ps, r.g.nodes.Keys, i, holders);
    StableAdd(ps, st.g.nodes.Keys, r.g.nodes.Keys, st.instances, pools, holders, x, i);
  }

  /** Stocking a pool of a turn prototype keeps the bookkeeping, with every queued copy known. */
  lemma {:induction false} StockedStable(ps: PrefabSet, st: Stock, pools: map<PlatformPrefab, seq<Id>>,
                                         holders: set<Id>, prefab: PlatformPrefab, n: nat)
    requires Stable(ps, st.g.nodes.Keys, st.instances, pools, holders) && holders <= st.g.nodes.Keys
    requires prefab == ps.left || prefab == ps.right
    requires forall y :: y in st.g.nodes ==> y < st.g.next
    requires Queued(st.pool, st.instances)
    ensures var r := Stocked(st, prefab, n);
            && Stable(ps, r.g.nodes.Keys, r.instances, pools, holders)
            && Queued(r.pool, r.instances)
    decreases n
  {
    if n > 0 {
      var st1 := StockStep(st, prefab);
      StockStepStable(ps, st, pools, holders, prefab);
      StockedStable(ps, st1, pools, holders, prefab, n - 1);
      var r := Stocked(st1, prefab, n - 1);
      assert Stocked(st, prefab, n) == r;
      assert Stable(ps, r.g.nodes.Keys, r.instances, pools, holders);
      assert Queued(r.pool, r.instances);
    } else {
      assert Stocked(st, prefab, n) == st;
    }
  }

  /** Stocking only adds copies: every copy known before keeps its record. */
  lemma {:induction false} StockedKeeps(st: Stock, prefab: PlatformPrefab, n: nat)
    requires forall o :: o in st.instances ==> o < st.g.next
    ensures var r := Stocked(st, prefab, n);
            forall o :: o in st.instances ==> o in r.instances && r.instances[o] == st.instances[o]
    decreases n
  {
    if n > 0 {
      var st1 := StockStep(st, prefab);
      assert st.g.next < st1.g.next by { StockStepKeys(st, prefab); }
      StockedKeeps(st1, prefab, n - 1);
    }
  }

  /** Recording a queue whose copies are all known keeps the bookkeeping. */
  lemma StableRecord(ps: PrefabSet, keys: set<Id>, instances: map<Id, Instance>, pools: map<PlatformPrefab, seq<Id>>,
                     holders: set<Id>, prefab: PlatformPrefab, pool: seq<Id>)
    requires Stable(ps, keys, instances, pools, holders) && Queued(pool, instances)
    ensures Stable(ps, keys, instances, pools[prefab := pool], holders)
  {
  }

  // ---------------------------------------------------------------------
  // The manager's state
  // ---------------------------------------------------------------------

  /**
   * `platformPools`, the copies' structure, `activePlatforms`, the
   * generation cursor (`currentPosition` and `currentRotation`),
   * `playerPlatformIndex`, the streak (`lastTurn`, `consecutiveTurnCount`)
   * and the ramp.
   */
  datatype TrackState = TrackState(pools: map<PlatformPrefab, seq<Id>>, instances: map<Id, Instance>, slots: Slots,
                                   cursor: Pose, index: int, lastTurn: Option<TurnType>, count: int, ramp: Ramp)

  /** Every occupied slot holds a known copy and records that copy's container. */
  predicate Known(s: TrackState) {
    forall i :: 0 <= i < |s.slots| && s.slots[i].Some? ==>
      s.slots[i].value.obj in s.instances && s.slots[i].value.container == s.instances[s.slots[i].value.obj].container
  }

  /** The streak: after a turn has been emitted, it has been emitted between once and the maximum number of times in a row. */
  predicate Streak(s: TrackState) {
    s.lastTurn.Some? ==> 1 <= s.count <= MaxConsecutiveSameTurns
  }

  /** The cursor sits at the end of the last platform laid, when that slot is still occupied. */
  predicate CursorAtEnd(s: TrackState) {
    |s.slots| > 0 && s.slots[|s.slots| - 1].Some? ==> s.cursor == s.slots[|s.slots| - 1].value.endPoint
  }

  /**
   * The manager's invariant: its bookkeeping is stable, pools are kept only
   * for the turn prototypes, slots are indexed, known and chained, the
   * player's index is not negative, the streak is bounded when the turn
   * prototypes are distinct, and the obstacle maximum stays between one and
   * the ceiling.
   */
  ghost predicate TrackOk(ps: PrefabSet, forwardOf: Rot -> Pos, holders: set<Id>, ceiling: int, s: TrackState, g: Graph) {
    && Stable(ps, g.nodes.Keys, s.instances, s.pools, holders)
    && (forall p :: p in s.pools ==> p == ps.left || p == ps.right)
    && Indexed(s.slots) && Known(s) && Chained(forwardOf, s.slots)
    && 0 <= s.index
    && (Distinct(ps) ==> Streak(s))
    && (ceiling >= 1 ==> 1 <= s.ramp.maxObstacles <= ceiling)
  }

  /** The scene only grew: the invariant carries over to it. */
  lemma TrackOkMoved(ps: PrefabSet, forwardOf: Rot -> Pos, holders: set<Id>, ceiling: int, s: TrackState, g: Graph, g': Graph)
    requires TrackOk(ps, forwardOf, holders, ceiling, s, g) && g.nodes.Keys <= g'.nodes.Keys
    ensures TrackOk(ps, forwardOf, holders, ceiling, s, g')
  {
    StableMoved(ps, g.nodes.Keys, g'.nodes.Keys, s.instances, s.pools, holders);
  }

  /**
   * `Awake`'s `platformPools[prefab] = CreatePool(prefab)` for a turn
   * prototype keeps the invariant, over a consistent scene
   * that only grew.
   */
  lemma StockedOk(ps: PrefabSet, forwardOf: Rot -> Pos, holders: set<Id>, ceiling: int, s: TrackState, g: Graph,
                  prefab: PlatformPrefab, n: nat)
    requires TrackOk(ps, forwardOf, holders, ceiling, s, g) && holders <= g.nodes.Keys && Consistent(g)
    requires prefab == ps.left || prefab == ps.right
    ensures var st := Stocked(Stock(g, s.instances, []), prefab, n);
            var s' := s.(pools := s.pools[prefab := st.pool], instances := st.instances);
            && TrackOk(ps, forwardOf, holders, ceiling, s', st.g) && Consistent(st.g) && g.nodes.Keys <= st.g.nodes.Keys
  {
    var st0 := Stock(g, s.instances, []);
    var st := Stocked(st0, prefab, n);
    var s' := s.(pools := s.pools[prefab := st.pool], instances := st.instances);
    StockedScene(st0, prefab, n);
    StockedStable(ps, st0, s.pools, holders, prefab, n);
    StockedKeeps(st0, prefab, n);
    StableRecord(ps, st.g.nodes.Keys, st.instances, s.pools, holders, prefab, st.pool);
    TrackOkKept(ps, forwardOf, holders, ceiling, s, g, s', st.g);
  }

  /** All of `Awake`: a pool for the left turn prototype, then one for the right, keeps the invariant. */
  lemma AwakeOk(ps: PrefabSet, forwardOf: Rot -> Pos, holders: set<Id>, ceiling: int, s: TrackState, g: Graph, n: nat)
    requires TrackOk(ps, forwardOf, holders, ceiling, s, g) && holders <= g.nodes.Keys && Consistent(g)
    ensures var st1 := Stocked(Stock(g, s.instances, []), ps.left, n);
            var st2 := Stocked(Stock(st1.g, st1.instances, []), ps.right, n);
            var s' := s.(pools := s.pools[ps.left := st1.pool][ps.right := st2.pool], instances := st2.instances);
            && TrackOk(ps, forwardOf, holders, ceiling, s', st2.g) && Consistent(st2.g) && g.nodes.Keys <= st2.g.nodes.Keys
  {
    var st1 := Stocked(Stock(g, s.instances, []), ps.left, n);
    StockedOk(ps, forwardOf, holders, ceiling, s, g, ps.left, n);
    StockedOk(ps, forwardOf, holders, ceiling, s.(pools := s.pools[ps.left := st1.pool], instances := st1.instances), st1.g, ps.right, n);
  }

  /** `x` is a root object of `g`, active exactly when `active` is. */
  ghost predicate Rooted(g: Graph, x: Id, active: bool) {
    x in g.nodes && g.nodes[x].parent == None && g.nodes[x].active == active
  }

  /**
   * The copies' pool invariant: each queued copy sits at one place of one
   * queue and is an inactive root object; each slot's copy is an active root
   * object, so it is queued nowhere, and it fills that slot alone.
   */
  ghost predicate CopiesSound(s: TrackState, g: Graph) {
    && QueuedOnce(s.pools)
    && (forall p, i :: p in s.pools && 0 <= i < |s.pools[p]| ==> Rooted(g, s.pools[p][i], false))
    && (forall k :: 0 <= k < |s.slots| && s.slots[k].Some? ==> Rooted(g, s.slots[k].value.obj, true))
    && OneSlotEach(s.slots)
  }

  /** No copy fills two slots. */
  predicate OneSlotEach(slots: Slots) {
    forall k, l :: 0 <= k < |slots| && 0 <= l < |slots| && slots[k].Some? && slots[l].Some? && slots[k].value.obj == slots[l].value.obj ==> k == l
  }

  /** A scene update that leaves every root object alone keeps the copies' invariant. */
  lemma CopiesSoundMoved(s: TrackState, g: Graph, g': Graph, touched: set<Option<Id>>)
    requires CopiesSound(s, g) && Confined(g, g', touched) && None !in touched
    ensures CopiesSound(s, g')
  {
  }

  /** Stocking enqueues distinct inactive root copies with ids from the scene's `next` on, and changes no existing object. */
  lemma {:induction false} StockedRoots(st: Stock, prefab: PlatformPrefab, n: nat)
    requires Consistent(st.g) && NoDup(st.pool) && forall x :: x in st.pool ==> Rooted(st.g, x, false)
    ensures var r := Stocked(st, prefab, n);
            && NoDup(r.pool) && Confined(st.g, r.g, {})
            && (forall x :: x in r.pool ==> Rooted(r.g, x, false) && (x in st.pool || st.g.next <= x))
    decreases n
  {
    if n > 0 {
      var x := st.g.next;
      var st1 := StockStep(st, prefab);
      StockStepShape(st, prefab);
      StockStepKeys(st, prefab);
      assert x !in st.pool;
      NoDupAppend(st.pool, x);
      StockedRoots(st1, prefab, n - 1);
      var r := Stocked(st1, prefab, n - 1);
      assert Stocked(st, prefab, n) == r;
      ConfinedTrans(st.g, st1.g, r.g, {});
    }
  }

  /** `platformPools[prefab] = CreatePool(prefab)` keeps the copies' invariant and changes no existing object. */
  lemma StockedSound(s: TrackState, g: Graph, prefab: PlatformPrefab, n: nat)
    requires CopiesSound(s, g) && Consistent(g)
    ensures var st := Stocked(Stock(g, s.instances, []), prefab, n);
            && CopiesSound(s.(pools := s.pools[prefab := st.pool], instances := st.instances), st.g)
            && Consistent(st.g) && Confined(g, st.g, {})
  {
    var st := Stocked(Stock(g, s.instances, []), prefab, n);
    var s' := s.(pools := s.pools[prefab := st.pool], instances := st.instances);
    StockedRoots(Stock(g, s.instances, []), prefab, n);
    StockedScene(Stock(g, s.instances, []), prefab, n);
    forall l, i | l in s.pools && l != prefab && 0 <= i < |s.pools[l]| ensures s.pools[l][i] !in st.pool {
      assert s.pools[l][i] in g.nodes;
    }
    ReplaceOnce(s.pools, prefab, st.pool);
    forall p, i | p in s'.pools && 0 <= i < |s'.pools[p]| ensures Rooted(st.g, s'.pools[p][i], false) {
      if p != prefab {
        assert s'.pools[p][i] == s.pools[p][i];
      } else {
        assert s'.pools[p][i] in st.pool;
      }
    }
    CopiesSoundMoved(s, g, st.g, {});
  }

  /** All of `Awake` keeps the copies' invariant and changes no existing object. */
  lemma AwakeSound(ps: PrefabSet, s: TrackState, g: Graph, n: nat)
    requires CopiesSound(s, g) && Consistent(g)
    ensures var st1 := Stocked(Stock(g, s.instances, []), ps.left, n);
            var st2 := Stocked(Stock(st1.g, st1.instances, []), ps.right, n);
            var s' := s.(pools := s.pools[ps.left := st1.pool][ps.right := st2.pool], instances := st2.instances);
            CopiesSound(s', st2.g) && Confined(g, st2.g, {})
  {
    var st1 := Stocked(Stock(g, s.instances, []), ps.left, n);
    var s1 := s.(pools := s.pools[ps.left := st1.pool], instances := st1.instances);
    StockedSound(s, g, ps.left, n);
    StockedSound(s1, st1.g, ps.right, n);
    var st2 := Stocked(Stock(st1.g, st1.instances, []), ps.right, n);
    ConfinedTrans(g, st1.g, st2.g, {});
  }

  // ---------------------------------------------------------------------
  // GetNextPlatform
  // ---------------------------------------------------------------------

  /** What `GetNextPlatform` leaves in the manager's state, and the record it returns (null when the copy has no "EndPoint"). */
  datatype Pick = Pick(s: TrackState, out: Option<Platform>)

  /** Every pooled copy is an object of the scene. */
  predicate PoolsInScene(s: TrackState, g: Graph) {
    forall p, i :: p in s.pools && 0 <= i < |s.pools[p]| ==> s.pools[p][i] in g.nodes
  }

  /** Every queued copy is a known one. */
  predicate PoolsKnown(s: TrackState) {
    forall p, i :: p in s.pools && 0 <= i < |s.pools[p]| ==> s.pools[p][i] in s.instances
  }

  /** The prototype `GetNextPlatform` settles on for the choice `chosen`: a repeat of the streak's turn is swapped for the other one. */
  function PickedPrefab(ps: PrefabSet, s: TrackState, chosen: PlatformPrefab, draw: nat): PlatformPrefab {
    SelectPrefab(ps, s.lastTurn, s.count, MaxConsecutiveSameTurns, chosen, draw)
  }

  /** The object it hands out: the head of that prototype's pool, or the fresh copy with id `next`. */
  function PickedId(s: TrackState, prefab: PlatformPrefab, next: Id): Id
    requires prefab in s.pools
  {
    if s.pools[prefab] != [] then s.pools[prefab][0] else next
  }

  /** The pool step for the settled prototype: dequeue the head, or record the fresh copy with id `next`. */
  function Drawn(s: TrackState, prefab: PlatformPrefab, next: Id): TrackState
    requires prefab in s.pools
  {
    if s.pools[prefab] != [] then s.(pools := s.pools[prefab := s.pools[prefab][1..]])
    else s.(instances := s.instances[next := Instance(prefab, ContainerOf(next, prefab))])
  }

  /** The same step on the scene: the dequeued or newly built copy, deactivated. */
  function DrawnScene(s: TrackState, g: Graph, prefab: PlatformPrefab): Graph
    requires prefab in s.pools && forall x :: x in s.pools[prefab] ==> x in g.nodes
  {
    if s.pools[prefab] != [] then WithActive(g, s.pools[prefab][0], false)
    else WithActive(Instantiated(g, prefab), g.next, false)
  }

  /**
   * `GetNextPlatform` on the manager's state, with `next` the id a fresh copy
   * would get: dequeue or construct, then give up (null) when the copy has
   * no "EndPoint"; otherwise record the emitted turn in the streak.
   */
  function Taken(ps: PrefabSet, s: TrackState, next: Id, chosen: PlatformPrefab, draw: nat): (r: Pick)
    requires ps.left in s.pools && ps.right in s.pools && (chosen == ps.left || chosen == ps.right) && PoolsKnown(s)
    ensures r.s.slots == s.slots && r.s.cursor == s.cursor && r.s.index == s.index && r.s.ramp == s.ramp
    ensures r.out.Some? ==> r.out.value.obj == PickedId(s, PickedPrefab(ps, s, chosen, draw), next) && r.out.value.obj in r.s.instances
  {
    var prefab := PickedPrefab(ps, s, chosen, draw);
    var x := PickedId(s, prefab, next);
    var s1 := Drawn(s, prefab, next);
    match s1.instances[x].prefab.endPoint
    case None => Pick(s1, None)
    case Some(e) =>
      var turn := GetTurnType(ps, prefab);
      Pick(s1.(lastTurn := Some(turn), count := NextCount(s.lastTurn, s.count, turn)), Some(Platform(x, e, Origin, Origin, 0, None)))
  }

  /** `GetNextPlatform` on the scene: the dequeued or newly built copy, deactivated. */
  function TakenScene(ps: PrefabSet, s: TrackState, g: Graph, chosen: PlatformPrefab, draw: nat): (r: Graph)
    requires ps.left in s.pools && ps.right in s.pools && (chosen == ps.left || chosen == ps.right)
    requires PoolsInScene(s, g)
    ensures PickedId(s, PickedPrefab(ps, s, chosen, draw), g.next) in r.nodes
  {
    DrawnScene(s, g, PickedPrefab(ps, s, chosen, draw))
  }

  /**
   * The streak rule at work: with distinct turn prototypes every platform
   * handed out is a turn, never the turn handed out just before it, and the
   * streak stays at one; a null result leaves the streak alone.
   */
  lemma TakenAlternates(ps: PrefabSet, s: TrackState, next: Id, chosen: PlatformPrefab, draw: nat)
    requires ps.left in s.pools && ps.right in s.pools && (chosen == ps.left || chosen == ps.right) && PoolsKnown(s)
    requires Distinct(ps) && Streak(s)
    ensures var r := Taken(ps, s, next, chosen, draw);
            && Streak(r.s)
            && (r.out.Some? ==> && r.s.lastTurn.Some? && r.s.lastTurn.value != Straight
                                && (s.lastTurn.Some? ==> r.s.lastTurn.value != s.lastTurn.value))
            && (r.out.None? ==> r.s.lastTurn == s.lastTurn && r.s.count == s.count)
  {
    if s.lastTurn.Some? {
      Alternates(ps, s.lastTurn.value, chosen, draw);
    } else {
      StreakBounded(ps, s.lastTurn, s.count, MaxConsecutiveSameTurns, chosen, draw);
    }
  }

  /**
   * Where the platform comes from: the head of its prototype's pool, which
   * leaves the queue, or, when the pool is empty, a fresh copy recorded with
   * its container; the record carries the copy's "EndPoint" pose, and a null
   * result means exactly that the copy has none.
   */
  lemma TakenSource(ps: PrefabSet, s: TrackState, next: Id, chosen: PlatformPrefab, draw: nat)
    requires ps.left in s.pools && ps.right in s.pools && (chosen == ps.left || chosen == ps.right) && PoolsKnown(s)
    ensures var r, prefab := Taken(ps, s, next, chosen, draw), PickedPrefab(ps, s, chosen, draw);
            var q, x := s.pools[prefab], PickedId(s, prefab, next);
            && (prefab == ps.left || prefab == ps.right)
            && (q != [] ==> r.s.pools == s.pools[prefab := q[1..]] && r.s.instances == s.instances)
            && (q == [] ==> r.s.pools == s.pools && r.s.instances == s.instances[next := Instance(prefab, ContainerOf(next, prefab))])
            && x in r.s.instances
            && (r.out.Some? <==> r.s.instances[x].prefab.endPoint.Some?)
            && (r.out.Some? ==> r.out.value == Platform(x, r.s.instances[x].prefab.endPoint.value, Origin, Origin, 0, None))
  {
  }

  /**
   * `GetNextPlatform` on the scene: the copy it hands out is in the scene and
   * inactive; a fresh copy has a new id, is named after its prototype and
   * comes with a new container; every other object is unchanged.
   */
  lemma TakenSceneShape(ps: PrefabSet, s: TrackState, g: Graph, chosen: PlatformPrefab, draw: nat)
    requires ps.left in s.pools && ps.right in s.pools && (chosen == ps.left || chosen == ps.right)
    requires Consistent(g) && PoolsInScene(s, g)
    ensures var g', prefab := TakenScene(ps, s, g, chosen, draw), PickedPrefab(ps, s, chosen, draw);
            var x := PickedId(s, prefab, g.next);
            && Consistent(g') && g.nodes.Keys <= g'.nodes.Keys
            && x in g'.nodes && !g'.nodes[x].active
            && (x in g.nodes <==> s.pools[prefab] != [])
            && (x !in g.nodes ==> g'.nodes[x].name == Names.CloneName(prefab.name)
                                  && (ContainerOf(g.next, prefab).Some? ==> ContainerOf(g.next, prefab).value in g'.nodes))
            && (forall y :: y in g.nodes && y != x ==> g'.nodes[y] == g.nodes[y])
  {
    var prefab := PickedPrefab(ps, s, chosen, draw);
    var x := PickedId(s, prefab, g.next);
    if s.pools[prefab] != [] {
      ActiveConsistent(g, x, false);
    } else {
      InstantiatedShape(g, prefab);
      ActiveConsistent(Instantiated(g, prefab), x, false);
    }
  }

  /** The part of that shape the bookkeeping needs: which ids are old and which are new. */
  lemma TakenKeys(ps: PrefabSet, s: TrackState, g: Graph, chosen: PlatformPrefab, draw: nat)
    requires ps.left in s.pools && ps.right in s.pools && (chosen == ps.left || chosen == ps.right)
    requires Consistent(g) && PoolsInScene(s, g)
    ensures var g', prefab := TakenScene(ps, s, g, chosen, draw), PickedPrefab(ps, s, chosen, draw);
            && g.nodes.Keys <= g'.nodes.Keys && g.next !in g.nodes && g.next + 1 !in g.nodes
            && (s.pools[prefab] == [] ==> g.next in g'.nodes && (prefab.hasContainer ==> g.next + 1 in g'.nodes))
  {
    var prefab := PickedPrefab(ps, s, chosen, draw);
    if s.pools[prefab] == [] {
      InstantiatedShape(g, prefab);
    }
  }

  /** A step that keeps the slots, the player's index and the ramp, pools only the turn prototypes and only adds copies, keeps the invariant. */
  lemma TrackOkKept(ps: PrefabSet, forwardOf: Rot -> Pos, holders: set<Id>, ceiling: int, s: TrackState, g: Graph, s': TrackState, g': Graph)
    requires TrackOk(ps, forwardOf, holders, ceiling, s, g)
    requires s'.slots == s.slots && s'.index == s.index && s'.ramp == s.ramp
    requires forall p :: p in s'.pools ==> p == ps.left || p == ps.right
    requires forall o :: o in s.instances ==> o in s'.instances && s'.instances[o] == s.instances[o]
    requires Stable(ps, g'.nodes.Keys, s'.instances, s'.pools, holders) && (Distinct(ps) ==> Streak(s'))
    ensures TrackOk(ps, forwardOf, holders, ceiling, s', g')
  {
  }

  /** `GetNextPlatform` keeps the invariant over the scene it leaves. */
  lemma TakenOk(ps: PrefabSet, forwardOf: Rot -> Pos, holders: set<Id>, ceiling: int, s: TrackState, g: Graph,
                chosen: PlatformPrefab, draw: nat)
    requires TrackOk(ps, forwardOf, holders, ceiling, s, g) && holders <= g.nodes.Keys && Consistent(g)
    requires ps.left in s.pools && ps.right in s.pools && (chosen == ps.left || chosen == ps.right)
    ensures PoolsKnown(s) && PoolsInScene(s, g)
    ensures var r, g' := Taken(ps, s, g.next, chosen, draw), TakenScene(ps, s, g, chosen, draw);
            TrackOk(ps, forwardOf, holders, ceiling, r.s, g')
  {
    var prefab := PickedPrefab(ps, s, chosen, draw);
    var g' := TakenScene(ps, s, g, chosen, draw);
    var r := Taken(ps, s, g.next, chosen, draw);
    TakenSource(ps, s, g.next, chosen, draw);
    TakenKeys(ps, s, g, chosen, draw);
    if Distinct(ps) {
      TakenAlternates(ps, s, g.next, chosen, draw);
    }
    TakenStable(ps, holders, s, g, g', prefab, r.s);
    TrackOkKept(ps, forwardOf, holders, ceiling, s, g, r.s, g');
  }

  /** The scene `GetNextPlatform` leaves stays consistent and keeps every object. */
  lemma TakenConsistent(ps: PrefabSet, s: TrackState, g: Graph, chosen: PlatformPrefab, draw: nat)
    requires ps.left in s.pools && ps.right in s.pools && (chosen == ps.left || chosen == ps.right)
    requires Consistent(g) && PoolsInScene(s, g)
    ensures var g' := TakenScene(ps, s, g, chosen, draw);
            Consistent(g') && g.nodes.Keys <= g'.nodes.Keys
  {
    var prefab := PickedPrefab(ps, s, chosen, draw);
    if s.pools[prefab] != [] {
      ActiveConsistent(g, s.pools[prefab][0], false);
    } else {
      InstantiatedShape(g, prefab);
      ActiveConsistent(Instantiated(g, prefab), g.next, false);
    }
  }

  /** The bookkeeping part of that: dequeuing a known copy, or recording a fresh housed one, keeps it stable. */
  lemma TakenStable(ps: PrefabSet, holders: set<Id>, s: TrackState, g: Graph, g': Graph, prefab: PlatformPrefab, s': TrackState)
    requires Stable(ps, g.nodes.Keys, s.instances, s.pools, holders) && g.nodes.Keys <= g'.nodes.Keys && g.next !in g.nodes
    requires prefab in s.pools && (prefab == ps.left || prefab == ps.right)
    requires s.pools[prefab] != [] ==> s'.pools == s.pools[prefab := s.pools[prefab][1..]] && s'.instances == s.instances
    requires s.pools[prefab] == [] ==> && s'.pools == s.pools && s'.instances == s.instances[g.next := Instance(prefab, ContainerOf(g.next, prefab))]
                                       && g.next in g'.nodes && (prefab.hasContainer ==> g.next + 1 in g'.nodes && g.next + 1 !in holders)
    ensures Stable(ps, g'.nodes.Keys, s'.instances, s'.pools, holders) && s'.pools.Keys == s.pools.Keys
    ensures forall o :: o in s.instances ==> o in s'.instances && s'.instances[o] == s.instances[o]
  {
    if s.pools[prefab] != [] {
      StableRecord(ps, g.nodes.Keys, s.instances, s.pools, holders, prefab, s.pools[prefab][1..]);
      StableMoved(ps, g.nodes.Keys, g'.nodes.Keys, s.instances, s'.pools, holders);
    } else {
      StableAdd(ps, g.nodes.Keys, g'.nodes.Keys, s.instances, s.pools, holders, g.next, Instance(prefab, ContainerOf(g.next, prefab)));
    }
  }

  /**
   * `GetNextPlatform` keeps the copies' invariant and changes no object but
   * a root one; the copy it hands out is an inactive root object, queued
   * nowhere and in no slot.
   */
  lemma TakenSound(ps: PrefabSet, s: TrackState, g: Graph, chosen: PlatformPrefab, draw: nat)
    requires ps.left in s.pools && ps.right in s.pools && (chosen == ps.left || chosen == ps.right) && PoolsKnown(s)
    requires Consistent(g) && PoolsInScene(s, g) && CopiesSound(s, g)
    ensures var r, g' := Taken(ps, s, g.next, chosen, draw), TakenScene(ps, s, g, chosen, draw);
            var x := PickedId(s, PickedPrefab(ps, s, chosen, draw), g.next);
            && CopiesSound(r.s, g') && Confined(g, g', {None})
            && Rooted(g', x, false) && Unqueued(r.s.pools, x)
            && (forall k :: 0 <= k < |r.s.slots| && r.s.slots[k].Some? ==> r.s.slots[k].value.obj != x)
  {
    var prefab := PickedPrefab(ps, s, chosen, draw);
    var x := PickedId(s, prefab, g.next);
    var r, g' := Taken(ps, s, g.next, chosen, draw), TakenScene(ps, s, g, chosen, draw);
    TakenSource(ps, s, g.next, chosen, draw);
    TakenSceneShape(ps, s, g, chosen, draw);
    if s.pools[prefab] != [] {
      DequeueOnce(s.pools, prefab);
      forall p, i | p in r.s.pools && 0 <= i < |r.s.pools[p]|
        ensures r.s.pools[p][i] == s.pools[p][if p == prefab then i + 1 else i]
      {
      }
      assert Rooted(g, x, false);
      assert CopiesSound(r.s, g');
    } else {
      InstantiatedShape(g, prefab);
      assert forall p, i :: p in s.pools && 0 <= i < |s.pools[p]| ==> s.pools[p][i] != x;
      assert CopiesSound(r.s, g');
    }
    ConfinedOne(g, g', x, {None});
  }

  // ---------------------------------------------------------------------
  // SpawnPlatform and the window
  // ---------------------------------------------------------------------

  /**
   * `SpawnPlatform` on the record: the platform is put at the cursor, so it
   * starts at the cursor's position and faces the cursor's way; its
   * "EndPoint" is carried from the copy's local pose into the world by
   * `place`; its container is the copy's "Obstacles" child.
   */
  function Laid(place: (Pose, Pose) -> Pose, forwardOf: Rot -> Pos, cursor: Pose, p: Platform, container: Option<Id>): Platform {
    p.(endPoint := place(cursor, p.endPoint), startPosition := cursor.position,
       forwardDirection := forwardOf(cursor.rotation), container := container)
  }

  /** `SpawnPlatform` on the scene: the copy is moved to the cursor and activated. */
  function LaidScene(g: Graph, x: Id, cursor: Pose): Graph
    requires x in g.nodes
  {
    WithActive(WithLocal(g, x, cursor.position), x, true)
  }

  /** `activePlatforms.Add` after `SpawnPlatform`: the laid record fills a new last slot, and the cursor is at its end. */
  function Appended(s: TrackState, q: Platform): TrackState {
    s.(slots := s.slots + [Some(q)], cursor := q.endPoint)
  }

  /** The window `Update` maintains: one platform of lookbehind, and the cursor at the end of the last platform. */
  predicate Windowed(s: TrackState) {
    Lookbehind(s.slots, s.index) && CursorAtEnd(s)
  }

  /**
   * Laying a known copy in a new last slot, at the cursor, keeps the
   * invariant: the new platform starts exactly where the previous one ends
   * and faces the way that one's end faces, and the cursor moves on to the
   * new platform's end.
   */
  lemma AppendedOk(ps: PrefabSet, place: (Pose, Pose) -> Pose, forwardOf: Rot -> Pos, holders: set<Id>, ceiling: int,
                   s: TrackState, g: Graph, p: Platform)
    requires TrackOk(ps, forwardOf, holders, ceiling, s, g) && CursorAtEnd(s)
    requires p.obj in s.instances && p.index == |s.slots|
    ensures var q := Laid(place, forwardOf, s.cursor, p, s.instances[p.obj].container);
            var s' := Appended(s, q);
            && TrackOk(ps, forwardOf, holders, ceiling, s', g) && CursorAtEnd(s')
            && (|s.slots| > 0 && s.slots[|s.slots| - 1].Some? ==>
                  q.startPosition == s.slots[|s.slots| - 1].value.endPoint.position
                  && q.forwardDirection == forwardOf(s.slots[|s.slots| - 1].value.endPoint.rotation))
  {
    var q := Laid(place, forwardOf, s.cursor, p, s.instances[p.obj].container);
    var s' := Appended(s, q);
    AppendChained(forwardOf, s.slots, q);
    AppendKnown(s, q);
  }

  /** A platform appended at its own index, joining up with the last one, keeps the slots indexed and chained. */
  lemma AppendChained(forwardOf: Rot -> Pos, slots: Slots, q: Platform)
    requires Indexed(slots) && Chained(forwardOf, slots) && q.index == |slots|
    requires |slots| > 0 && slots[|slots| - 1].Some? ==>
               q.startPosition == slots[|slots| - 1].value.endPoint.position
               && q.forwardDirection == forwardOf(slots[|slots| - 1].value.endPoint.rotation)
    ensures Indexed(slots + [Some(q)]) && Chained(forwardOf, slots + [Some(q)])
  {
    var r := slots + [Some(q)];
    assert forall i :: 0 <= i < |slots| ==> r[i] == slots[i];
  }

  /** Appending a known copy with its recorded container keeps every slot known. */
  lemma AppendKnown(s: TrackState, q: Platform)
    requires Known(s) && q.obj in s.instances && q.container == s.instances[q.obj].container
    ensures Known(Appended(s, q))
  {
    var r := Appended(s, q).slots;
    assert forall i :: 0 <= i < |s.slots| ==> r[i] == s.slots[i];
  }

  /** Laying a copy changes only that copy: it is active, at the cursor. */
  lemma LaidSceneShape(g: Graph, x: Id, cursor: Pose)
    requires Consistent(g) && x in g.nodes
    ensures var g' := LaidScene(g, x, cursor);
            && Consistent(g') && g'.nodes.Keys == g.nodes.Keys && g'.next == g.next
            && g'.nodes[x] == g.nodes[x].(local := cursor.position, active := true)
            && (forall y :: y in g.nodes && y != x ==> g'.nodes[y] == g.nodes[y])
  {
    LocalConsistent(g, x, cursor.position);
    ActiveConsistent(WithLocal(g, x, cursor.position), x, true);
  }

  /** The manager's state, the scene, and the record `GetNextPlatform` handed back. */
  datatype Step = Step(s: TrackState, g: Graph, out: Option<Platform>)

  /**
   * `GetNextPlatform`, then, for a record, `newPlatform.index =
   * activePlatforms.Count`, `SpawnPlatform` and `activePlatforms.Add`: the
   * copy handed out is laid at the cursor in a new last slot.
   */
  function NextLaid(ps: PrefabSet, place: (Pose, Pose) -> Pose, forwardOf: Rot -> Pos, s: TrackState, g: Graph,
                    chosen: PlatformPrefab, draw: nat): Step
    requires ps.left in s.pools && ps.right in s.pools && (chosen == ps.left || chosen == ps.right) && PoolsKnown(s)
    requires Consistent(g) && PoolsInScene(s, g)
  {
    var r, g1 := Taken(ps, s, g.next, chosen, draw), TakenScene(ps, s, g, chosen, draw);
    if r.out.None? then Step(r.s, g1, None)
    else
      var p := r.out.value.(index := |s.slots|);
      var q := Laid(place, forwardOf, s.cursor, p, r.s.instances[p.obj].container);
      Step(Appended(r.s, q), LaidScene(g1, p.obj, s.cursor), Some(q))
  }

  /**
   * Fetching and laying the next platform keeps the invariant and the
   * cursor's window, the scene's consistency and every object, and puts
   * the laid copy, and its container when it has one, in the scene.
   */
  lemma NextLaidOk(ps: PrefabSet, place: (Pose, Pose) -> Pose, forwardOf: Rot -> Pos, holders: set<Id>, ceiling: int,
                   s: TrackState, g: Graph, chosen: PlatformPrefab, draw: nat)
    requires TrackOk(ps, forwardOf, holders, ceiling, s, g) && CursorAtEnd(s) && holders <= g.nodes.Keys && Consistent(g)
    requires ps.left in s.pools && ps.right in s.pools && (chosen == ps.left || chosen == ps.right)
    ensures PoolsKnown(s) && PoolsInScene(s, g)
    ensures var st := NextLaid(ps, place, forwardOf, s, g, chosen, draw);
            && TrackOk(ps, forwardOf, holders, ceiling, st.s, st.g) && CursorAtEnd(st.s)
            && Consistent(st.g) && g.nodes.Keys <= st.g.nodes.Keys
            && (st.out.Some? ==> LaidIn(st.out.value, st.s.instances, st.g))
  {
    TakenOk(ps, forwardOf, holders, ceiling, s, g, chosen, draw);
    TakenConsistent(ps, s, g, chosen, draw);
    TakenSource(ps, s, g.next, chosen, draw);
    var r, g1 := Taken(ps, s, g.next, chosen, draw), TakenScene(ps, s, g, chosen, draw);
    assert r.s.cursor == s.cursor && r.s.slots == s.slots;
    assert CursorAtEnd(r.s);
    if r.out.Some? {
      var p := r.out.value.(index := |s.slots|);
      LaidOk(ps, place, forwardOf, holders, ceiling, r.s, g1, p);
      var q := Laid(place, forwardOf, r.s.cursor, p, r.s.instances[p.obj].container);
      assert NextLaid(ps, place, forwardOf, s, g, chosen, draw) == Step(Appended(r.s, q), LaidScene(g1, p.obj, r.s.cursor), Some(q));
    }
  }

  /**
   * What fetching and laying does to the slot list: it grows by exactly the
   * record laid, which sits at its own index and starts at the old cursor,
   * facing the cursor's way; the player's index, the ramp and the pools'
   * prototypes stay.
   */
  lemma NextLaidShape(ps: PrefabSet, place: (Pose, Pose) -> Pose, forwardOf: Rot -> Pos, s: TrackState, g: Graph,
                      chosen: PlatformPrefab, draw: nat)
    requires ps.left in s.pools && ps.right in s.pools && (chosen == ps.left || chosen == ps.right) && PoolsKnown(s)
    requires Consistent(g) && PoolsInScene(s, g)
    ensures var st := NextLaid(ps, place, forwardOf, s, g, chosen, draw);
            && st.s.pools.Keys == s.pools.Keys
            && st.s.slots == s.slots + (if st.out.Some? then [st.out] else [])
            && st.s.index == s.index && st.s.ramp == s.ramp
            && (st.out.Some? ==> && st.out.value.index == |s.slots|
                                 && st.out.value.startPosition == s.cursor.position
                                 && st.out.value.forwardDirection == forwardOf(s.cursor.rotation))
  {
    TakenSource(ps, s, g.next, chosen, draw);
    var prefab := PickedPrefab(ps, s, chosen, draw);
    if s.pools[prefab] != [] {
      KeysKept(s.pools, prefab, s.pools[prefab][1..]);
    }
  }

  /** Laying a known copy at its own index keeps the invariant, the window and the scene's objects; the copy, and its container when it has one, are in the scene. */
  lemma LaidOk(ps: PrefabSet, place: (Pose, Pose) -> Pose, forwardOf: Rot -> Pos, holders: set<Id>, ceiling: int,
               s: TrackState, g: Graph, p: Platform)
    requires TrackOk(ps, forwardOf, holders, ceiling, s, g) && CursorAtEnd(s) && Consistent(g)
    requires p.obj in s.instances && p.index == |s.slots|
    ensures p.obj in g.nodes
    ensures var q, g' := Laid(place, forwardOf, s.cursor, p, s.instances[p.obj].container), LaidScene(g, p.obj, s.cursor);
            && TrackOk(ps, forwardOf, holders, ceiling, Appended(s, q), g') && CursorAtEnd(Appended(s, q))
            && Consistent(g') && g'.nodes.Keys == g.nodes.Keys
            && LaidIn(q, s.instances, g')
  {
    assert p.obj in g.nodes && Housed(ps, g.nodes.Keys, s.instances[p.obj], holders);
    AppendedOk(ps, place, forwardOf, holders, ceiling, s, g, p);
    LaidSceneShape(g, p.obj, s.cursor);
    var q := Laid(place, forwardOf, s.cursor, p, s.instances[p.obj].container);
    TrackOkMoved(ps, forwardOf, holders, ceiling, Appended(s, q), g, LaidScene(g, p.obj, s.cursor));
  }

  /** Fetching and laying the next platform keeps the copies' invariant and changes no object but root ones. */
  lemma NextLaidSound(ps: PrefabSet, place: (Pose, Pose) -> Pose, forwardOf: Rot -> Pos, s: TrackState, g: Graph,
                      chosen: PlatformPrefab, draw: nat)
    requires ps.left in s.pools && ps.right in s.pools && (chosen == ps.left || chosen == ps.right) && PoolsKnown(s)
    requires Consistent(g) && PoolsInScene(s, g) && CopiesSound(s, g)
    ensures var st := NextLaid(ps, place, forwardOf, s, g, chosen, draw);
            CopiesSound(st.s, st.g) && Confined(g, st.g, {None})
  {
    TakenSound(ps, s, g, chosen, draw);
    var r, g1 := Taken(ps, s, g.next, chosen, draw), TakenScene(ps, s, g, chosen, draw);
    if r.out.Some? {
      var p := r.out.value.(index := |s.slots|);
      var q := Laid(place, forwardOf, s.cursor, p, r.s.instances[p.obj].container);
      TakenConsistent(ps, s, g, chosen, draw);
      LaidSound(r.s, g1, q, s.cursor);
      ConfinedTrans(g, g1, LaidScene(g1, p.obj, s.cursor), {None});
    }
  }

  /**
   * Everything fetching and laying the next platform keeps, at once: the
   * invariant, the copies' invariant, the cursor's window, the scene's
   * consistency and objects, the pools' prototypes; the laid copy and its
   * container when it has one are in the scene; no object changes but root ones.
   */
  lemma NextLaidKept(ps: PrefabSet, place: (Pose, Pose) -> Pose, forwardOf: Rot -> Pos, holders: set<Id>, ceiling: int,
                     s: TrackState, g: Graph, chosen: PlatformPrefab, draw: nat)
    requires TrackOk(ps, forwardOf, holders, ceiling, s, g) && CopiesSound(s, g) && CursorAtEnd(s) && holders <= g.nodes.Keys && Consistent(g)
    requires ps.left in s.pools && ps.right in s.pools && (chosen == ps.left || chosen == ps.right)
    ensures PoolsKnown(s) && PoolsInScene(s, g)
    ensures var st := NextLaid(ps, place, forwardOf, s, g, chosen, draw);
            && TrackOk(ps, forwardOf, holders, ceiling, st.s, st.g) && CopiesSound(st.s, st.g) && CursorAtEnd(st.s)
            && Consistent(st.g) && g.nodes.Keys <= st.g.nodes.Keys && st.s.pools.Keys == s.pools.Keys
            && Confined(g, st.g, {None})
            && (st.out.Some? ==> LaidIn(st.out.value, st.s.instances, st.g))
            && (st.out.Some? && ps.left.hasContainer && ps.right.hasContainer ==> st.out.value.container.Some?)
  {
    NextLaidOk(ps, place, forwardOf, holders, ceiling, s, g, chosen, draw);
    NextLaidShape(ps, place, forwardOf, s, g, chosen, draw);
    NextLaidSound(ps, place, forwardOf, s, g, chosen, draw);
  }

  /**
   * What fetching and laying the next platform does to the streak: a record
   * comes back whenever both turn prototypes have an "EndPoint", and then
   * the streak's turn is that of the prototype settled on for `chosen`. With
   * distinct turn prototypes that turn differs from the previous one, and
   * asking for the right turn gives the right turn unless the right turn was
   * the previous one.
   */
  lemma NextLaidTurn(ps: PrefabSet, place: (Pose, Pose) -> Pose, forwardOf: Rot -> Pos, holders: set<Id>, ceiling: int,
                     s: TrackState, g: Graph, chosen: PlatformPrefab, draw: nat)
    requires TrackOk(ps, forwardOf, holders, ceiling, s, g) && PoolsKnown(s) && PoolsInScene(s, g) && Consistent(g)
    requires ps.left in s.pools && ps.right in s.pools && (chosen == ps.left || chosen == ps.right)
    ensures var st, turn := NextLaid(ps, place, forwardOf, s, g, chosen, draw), GetTurnType(ps, PickedPrefab(ps, s, chosen, draw));
            && (ps.left.endPoint.Some? && ps.right.endPoint.Some? ==> st.out.Some?)
            && (st.out.Some? ==> st.s.lastTurn == Some(turn))
            && (st.out.None? ==> st.s.lastTurn == s.lastTurn)
            && (Distinct(ps) ==> turn != Straight && (s.lastTurn.Some? ==> turn != s.lastTurn.value))
            && (Distinct(ps) && chosen == ps.right ==> turn == (if s.lastTurn == Some(Right) then Left else Right))
  {
    TakenSource(ps, s, g.next, chosen, draw);
    var prefab := PickedPrefab(ps, s, chosen, draw);
    var x := PickedId(s, prefab, g.next);
    if s.pools[prefab] != [] {
      assert s.pools[prefab][0] in s.instances;
    }
    if Distinct(ps) {
      TurnTypeOfPrefabs(ps, prefab);
      TakenAlternates(ps, s, g.next, chosen, draw);
      if s.lastTurn.Some? {
        Alternates(ps, s.lastTurn.value, chosen, draw);
      }
    }
  }

  /** Laying an inactive root copy that is queued nowhere and in no slot, in a new last slot, keeps the copies' invariant. */
  lemma LaidSound(s: TrackState, g: Graph, q: Platform, cursor: Pose)
    requires CopiesSound(s, g) && Consistent(g) && Rooted(g, q.obj, false) && Unqueued(s.pools, q.obj)
    requires forall k :: 0 <= k < |s.slots| && s.slots[k].Some? ==> s.slots[k].value.obj != q.obj
    ensures var g' := LaidScene(g, q.obj, cursor);
            CopiesSound(Appended(s, q), g') && Confined(g, g', {None})
  {
    var g' := LaidScene(g, q.obj, cursor);
    var s' := Appended(s, q);
    LaidSceneShape(g, q.obj, cursor);
    ConfinedOne(g, g', q.obj, {None});
    assert forall k :: 0 <= k < |s.slots| ==> s'.slots[k] == s.slots[k];
    assert s'.slots[|s.slots|] == Some(q);
  }

  // ---------------------------------------------------------------------
  // RecyclePlatformAtIndex
  // ---------------------------------------------------------------------

  /** The manager's state together with the scene. */
  datatype Stage = Stage(s: TrackState, g: Graph)

  /**
   * `RecyclePlatformAtIndex` on the manager's state and the scene: the
   * slot's copy is deactivated and enqueued in the pool of the prototype its
   * name resolves to (nowhere when that prototype has no pool), and the slot
   * becomes null; an index out of range changes nothing.
   */
  function Recycled(ps: PrefabSet, s: TrackState, g: Graph, index: int): Stage
    requires 0 <= index < |s.slots| ==> s.slots[index].Some? && s.slots[index].value.obj in g.nodes
  {
    if 0 <= index < |s.slots| then
      var x := s.slots[index].value.obj;
      var prefab := GetPrefabFromInstance(ps, g.nodes[x].name);
      Stage(s.(pools := if prefab in s.pools then s.pools[prefab := s.pools[prefab] + [x]] else s.pools,
               slots := Recycle(s.slots, index)),
            WithActive(g, x, false))
    else Stage(s, g)
  }

  /** The children of the record's container; none when the copy has no container. */
  function ContainerKids(g: Graph, p: Platform): seq<Id>
    requires p.container.Some? ==> p.container.value in g.kids
  {
    if p.container.Some? then g.kids[p.container.value] else []
  }

  /** Recycling keeps the invariant and the cursor's window, on a scene that loses no object. */
  lemma RecycledOk(ps: PrefabSet, forwardOf: Rot -> Pos, holders: set<Id>, ceiling: int, s: TrackState, g: Graph, index: int)
    requires TrackOk(ps, forwardOf, holders, ceiling, s, g) && Consistent(g)
    requires 0 <= index < |s.slots| ==> s.slots[index].Some?
    ensures 0 <= index < |s.slots| ==> s.slots[index].value.obj in g.nodes
    ensures var r := Recycled(ps, s, g, index);
            && TrackOk(ps, forwardOf, holders, ceiling, r.s, r.g) && Consistent(r.g)
            && r.g.nodes.Keys == g.nodes.Keys && r.g.next == g.next
            && (CursorAtEnd(s) ==> CursorAtEnd(r.s))
            && r.s.index == s.index && r.s.cursor == s.cursor && r.s.ramp == s.ramp
  {
    if 0 <= index < |s.slots| {
      var x := s.slots[index].value.obj;
      assert x in s.instances;
      var r := Recycled(ps, s, g, index);
      RecycledScene(ps, s, g, index);
      RecycledBooks(ps, holders, s, g, index);
      NulledOk(ps, forwardOf, holders, ceiling, s, g, r.s, r.g, index);
    }
  }

  /** Recycling on the scene: only the copy's activity changes. */
  lemma RecycledScene(ps: PrefabSet, s: TrackState, g: Graph, index: int)
    requires Consistent(g) && 0 <= index < |s.slots| && s.slots[index].Some? && s.slots[index].value.obj in g.nodes
    ensures var r := Recycled(ps, s, g, index);
            Consistent(r.g) && r.g.nodes.Keys == g.nodes.Keys && r.g.next == g.next
  {
    ActiveConsistent(g, s.slots[index].value.obj, false);
  }

  /** Recycling a known copy keeps the bookkeeping: it is queued again under a prototype that has a pool, or under none. */
  lemma RecycledBooks(ps: PrefabSet, holders: set<Id>, s: TrackState, g: Graph, index: int)
    requires Stable(ps, g.nodes.Keys, s.instances, s.pools, holders)
    requires 0 <= index < |s.slots| && s.slots[index].Some?
    requires s.slots[index].value.obj in g.nodes && s.slots[index].value.obj in s.instances
    ensures var r := Recycled(ps, s, g, index);
            && Stable(ps, r.g.nodes.Keys, r.s.instances, r.s.pools, holders)
            && r.s.pools.Keys == s.pools.Keys && r.s.instances == s.instances
            && r.s.slots == Recycle(s.slots, index)
            && r.s.index == s.index && r.s.ramp == s.ramp && r.s.cursor == s.cursor
            && r.s.lastTurn == s.lastTurn && r.s.count == s.count
  {
    var x := s.slots[index].value.obj;
    var prefab := GetPrefabFromInstance(ps, g.nodes[x].name);
    if prefab in s.pools {
      StableRecord(ps, g.nodes.Keys, s.instances, s.pools, holders, prefab, s.pools[prefab] + [x]);
      KeysKept(s.pools, prefab, s.pools[prefab] + [x]);
    }
  }

  /** Updating a key already present keeps the key set. */
  lemma KeysKept<K, V>(m: map<K, V>, k: K, v: V)
    requires k in m
    ensures m[k := v].Keys == m.Keys
  {
  }

  /** Nulling one slot, with the bookkeeping kept stable, keeps the invariant. */
  lemma NulledOk(ps: PrefabSet, forwardOf: Rot -> Pos, holders: set<Id>, ceiling: int, s: TrackState, g: Graph,
                 s': TrackState, g': Graph, index: int)
    requires TrackOk(ps, forwardOf, holders, ceiling, s, g)
    requires s'.slots == Recycle(s.slots, index) && s'.instances == s.instances && s'.pools.Keys == s.pools.Keys
    requires s'.index == s.index && s'.ramp == s.ramp && s'.cursor == s.cursor && s'.lastTurn == s.lastTurn && s'.count == s.count
    requires Stable(ps, g'.nodes.Keys, s'.instances, s'.pools, holders)
    ensures TrackOk(ps, forwardOf, holders, ceiling, s', g') && (CursorAtEnd(s) ==> CursorAtEnd(s'))
  {
  }

  /**
   * A recycled copy that still carries its clone name goes back to the tail
   * of its own prototype's pool, inactive, when the two turn prototypes are
   * distinct; no other pool changes.
   */
  lemma RecycledHome(ps: PrefabSet, s: TrackState, g: Graph, index: int)
    requires 0 <= index < |s.slots| && s.slots[index].Some?
    requires var x := s.slots[index].value.obj;
             x in g.nodes && x in s.instances && g.nodes[x].name == Names.CloneName(s.instances[x].prefab.name)
    requires Distinct(ps) && var p := s.instances[s.slots[index].value.obj].prefab; (p == ps.left || p == ps.right) && p in s.pools
    ensures var x, r := s.slots[index].value.obj, Recycled(ps, s, g, index);
            var p := s.instances[x].prefab;
            && r.s.pools == s.pools[p := s.pools[p] + [x]]
            && !r.g.nodes[x].active && r.s.slots[index].None?
  {
    var x := s.slots[index].value.obj;
    PrefabOfClone(ps, s.instances[x].prefab);
  }

  /** Recycling keeps the copies' invariant, the recycled copy now queued, and changes no object but a root one. */
  lemma RecycledSound(ps: PrefabSet, s: TrackState, g: Graph, index: int)
    requires 0 <= index < |s.slots| ==> s.slots[index].Some? && s.slots[index].value.obj in g.nodes
    requires CopiesSound(s, g)
    ensures var r := Recycled(ps, s, g, index);
            CopiesSound(r.s, r.g) && Confined(g, r.g, {None})
  {
    if 0 <= index < |s.slots| {
      var x := s.slots[index].value.obj;
      var prefab := GetPrefabFromInstance(ps, g.nodes[x].name);
      var r := Recycled(ps, s, g, index);
      assert Rooted(g, x, true);
      assert Unqueued(s.pools, x);
      if prefab in s.pools {
        EnqueueOnce(s.pools, prefab, x);
        forall p, i | p in r.s.pools && 0 <= i < |r.s.pools[p]|
          ensures (p == prefab && i == |s.pools[p]| && r.s.pools[p][i] == x) || (i < |s.pools[p]| && r.s.pools[p][i] == s.pools[p][i])
        {
        }
      }
      ConfinedOne(g, r.g, x, {None});
    }
  }

  // ---------------------------------------------------------------------
  // SpawnObstacleOnPlatform
  // ---------------------------------------------------------------------

  /** Acquiring an obstacle changes no existing object's children, and no object but the one handed out. */
  lemma AcquiredRest(s: Obstacles.PoolState, prefab: Obstacles.Prefab, c: Id)
    requires Consistent(s.g) && prefab in s.pools && (s.pools[prefab] != [] ==> s.pools[prefab][0] in s.g.nodes)
    requires c in s.g.nodes
    ensures var a, o := Obstacles.Acquired(s, prefab), Obstacles.AcquiredId(s, prefab);
            && c in a.g.kids && a.g.kids[c] == s.g.kids[c]
            && (forall y :: y in s.g.nodes && y != o ==> y in a.g.nodes && a.g.nodes[y] == s.g.nodes[y])
  {
  }

  /**
   * Placing one obstacle keeps the obstacle manager's invariant and its
   * pools' keys, removes no object, and changes no object but the obstacle,
   * which is active under the container at the position; the container's
   * children are kept, in order, with the obstacle added at the end unless
   * it was there already.
   */
  lemma PlacedObstacleShape(s: Obstacles.PoolState, prefabs: seq<Obstacles.Prefab>, holder: Id, prefab: Obstacles.Prefab, c: Id, pos: Pos)
    requires Obstacles.Managed(s, prefabs, holder) && prefab in s.pools && c in s.g.nodes
    ensures var r, o := PlacedObstacle(s, prefab, c, pos), Obstacles.AcquiredId(s, prefab);
            && Obstacles.Managed(r, prefabs, holder) && s.g.nodes.Keys <= r.g.nodes.Keys && r.pools.Keys == s.pools.Keys
            && o in r.g.nodes && r.g.nodes[o].parent == Some(c) && r.g.nodes[o].local == pos && r.g.nodes[o].active
            && (forall y :: y in s.g.nodes && y != o ==> r.g.nodes[y] == s.g.nodes[y])
            && (o in s.g.nodes ==> r.g.nodes[o].tag == s.g.nodes[o].tag)
            && c in r.g.kids && (r.g.kids[c] == s.g.kids[c] || r.g.kids[c] == s.g.kids[c] + [o])
  {
    var a, o := Obstacles.Acquired(s, prefab), Obstacles.AcquiredId(s, prefab);
    Obstacles.AcquiredManaged(s, prefabs, holder, prefab);
    AcquiredRest(s, prefab, c);
    FittedNodes(a.g, o, c, pos);
    FittedKids(a.g, o, c, pos);
    if s.pools[prefab] != [] {
      KeysKept(s.pools, prefab, s.pools[prefab][1..]);
    }
  }

  /** The random draws of one `SpawnObstacleOnPlatform`: the ten attempts, and the `GetRandomObstaclePrefab` pick. */
  datatype ObstacleDraws = ObstacleDraws(cands: seq<Candidate>, pick: nat)

  /** The occupied positions an obstacle is checked against: those passed in, then the container's children tagged "Obstacle". */
  function Occupied(g: Graph, c: Id, occupied: seq<Pos>): seq<Pos>
    requires c in g.kids
  {
    occupied + PositionsOf(g.nodes, g.kids[c], Some(ObstacleTag))
  }

  /** The kind of platform an object is, by its name. */
  function KindOf(ps: PrefabSet, g: Graph, x: Id): TurnType
    requires x in g.nodes
  {
    GetTurnType(ps, GetPrefabFromInstance(ps, g.nodes[x].name))
  }

  /** The obstacle pools and the occupied positions after one `SpawnObstacleOnPlatform`. */
  datatype Landing = Landing(s: Obstacles.PoolState, occupied: seq<Pos>)

  /**
   * `SpawnObstacleOnPlatform` for platform object `x` with container `c`
   * and length `length`: the container's obstacles join the occupied list;
   * at the first candidate clear of all of them an obstacle of the picked
   * prototype is placed and its position joins the list too.
   */
  function ObstacleLanding(ps: PrefabSet, prefabs: seq<Obstacles.Prefab>, min: real, length: real,
                           s: Obstacles.PoolState, x: Id, c: Id, occupied: seq<Pos>, d: ObstacleDraws): Landing
    requires x in s.g.nodes && c in s.g.kids && |prefabs| > 0
    requires forall p :: p in prefabs ==> p in s.pools && (s.pools[p] != [] ==> s.pools[p][0] in s.g.nodes)
  {
    var occ := Occupied(s.g, c, occupied);
    match ObstacleSpot(KindOf(ps, s.g, x), length, occ, d.cands, min)
    case None => Landing(s, occ)
    case Some(pos) => Landing(PlacedObstacle(s, prefabs[d.pick % |prefabs|], c, pos), occ + [pos])
  }

  /**
   * One obstacle attempt either changes nothing but the occupied list, or
   * places an obstacle of the picked prototype under the container at a
   * position clear of every occupied one and of every obstacle already on
   * the container, keeping the obstacle manager's invariant; on a platform
   * long enough the position lies on a lane, inside the platform's span.
   */
  lemma LandingPlaces(ps: PrefabSet, prefabs: seq<Obstacles.Prefab>, holder: Id, min: real, length: real,
                      s: Obstacles.PoolState, x: Id, c: Id, occupied: seq<Pos>, d: ObstacleDraws)
    requires Obstacles.Managed(s, prefabs, holder) && |prefabs| > 0 && (forall p :: p in prefabs ==> p in s.pools)
    requires x in s.g.nodes && c in s.g.nodes
    ensures c in s.g.kids
    ensures var l, occ := ObstacleLanding(ps, prefabs, min, length, s, x, c, occupied, d), Occupied(s.g, c, occupied);
            var spot := ObstacleSpot(KindOf(ps, s.g, x), length, occ, d.cands, min);
            var o := Obstacles.AcquiredId(s, prefabs[d.pick % |prefabs|]);
            && Obstacles.Managed(l.s, prefabs, holder) && s.g.nodes.Keys <= l.s.g.nodes.Keys && l.s.pools.Keys == s.pools.Keys
            && (spot.None? ==> l == Landing(s, occ))
            && (spot.Some? ==> && l.occupied == occ + [spot.value] && !TooClose(spot.value, occ, min)
                               && o in l.s.g.nodes && l.s.g.nodes[o].parent == Some(c) && l.s.g.nodes[o].active
                               && l.s.g.nodes[o].local == spot.value
                               && (forall y :: y in s.g.nodes && y != o ==> l.s.g.nodes[y] == s.g.nodes[y])
                               && c in l.s.g.kids && (l.s.g.kids[c] == s.g.kids[c] || l.s.g.kids[c] == s.g.kids[c] + [o]))
  {
    var occ := Occupied(s.g, c, occupied);
    var spot := ObstacleSpot(KindOf(ps, s.g, x), length, occ, d.cands, min);
    if spot.Some? {
      PlacedObstacleShape(s, prefabs, holder, prefabs[d.pick % |prefabs|], c, spot.value);
    }
  }

  /** Where the obstacle goes: on a lane of the platform's kind, at height 0, inside its span. */
  lemma LandingInSpan(ps: PrefabSet, prefabs: seq<Obstacles.Prefab>, min: real, length: real,
                      s: Obstacles.PoolState, x: Id, c: Id, occupied: seq<Pos>, d: ObstacleDraws)
    requires x in s.g.nodes && c in s.g.kids && |prefabs| > 0
    requires forall p :: p in prefabs ==> p in s.pools && (s.pools[p] != [] ==> s.pools[p][0] in s.g.nodes)
    requires length >= 2.0
    ensures var l, turn := ObstacleLanding(ps, prefabs, min, length, s, x, c, occupied, d), KindOf(ps, s.g, x);
            |l.occupied| > |Occupied(s.g, c, occupied)| ==>
              var pos := l.occupied[|l.occupied| - 1];
              && pos.x in ObstacleLanes(turn) && pos.y == 0.0
              && (turn != Straight ==> 0.3 * length <= pos.z <= 0.7 * length)
              && (turn == Straight ==> 1.0 <= pos.z <= length - 1.0)
  {
    ObstacleSpotInSpan(KindOf(ps, s.g, x), length, Occupied(s.g, c, occupied), d.cands, min);
  }

  /** Placing one obstacle keeps the obstacle pools' invariant and changes no object but a child of the obstacle manager. */
  lemma PlacedObstacleSound(s: Obstacles.PoolState, prefabs: seq<Obstacles.Prefab>, holder: Id, prefab: Obstacles.Prefab, c: Id, pos: Pos)
    requires Obstacles.Managed(s, prefabs, holder) && Obstacles.PoolsSound(s, holder) && prefab in s.pools && c in s.g.nodes
    ensures var r := PlacedObstacle(s, prefab, c, pos);
            Obstacles.PoolsSound(r, holder) && Confined(s.g, r.g, {Some(holder)})
  {
    var a, o := Obstacles.Acquired(s, prefab), Obstacles.AcquiredId(s, prefab);
    var r := PlacedObstacle(s, prefab, c, pos);
    Obstacles.AcquiredManaged(s, prefabs, holder, prefab);
    Obstacles.AcquiredSound(s, prefabs, holder, prefab);
    PlacedObstacleShape(s, prefabs, holder, prefab, c, pos);
    if o in a.g.nodes && c in a.g.nodes {
      FittedNodes(a.g, o, c, pos);
      Obstacles.PoolsSoundOne(a, holder, r.g, o);
    }
    if s.pools[prefab] == [] {
      assert o !in s.g.nodes;
    }
    ConfinedOne(s.g, r.g, o, {Some(holder)});
  }

  /** One obstacle attempt keeps the obstacle pools' invariant and changes no object but a child of the obstacle manager. */
  lemma LandingSound(ps: PrefabSet, prefabs: seq<Obstacles.Prefab>, holder: Id, min: real, length: real,
                     s: Obstacles.PoolState, x: Id, c: Id, occupied: seq<Pos>, d: ObstacleDraws)
    requires Obstacles.Managed(s, prefabs, holder) && |prefabs| > 0 && Obstacles.PoolsSound(s, holder) && (forall p :: p in prefabs ==> p in s.pools)
    requires x in s.g.nodes && c in s.g.nodes
    ensures c in s.g.kids
    ensures var l := ObstacleLanding(ps, prefabs, min, length, s, x, c, occupied, d);
            Obstacles.PoolsSound(l.s, holder) && Confined(s.g, l.s.g, {Some(holder)})
  {
    LandingPlaces(ps, prefabs, holder, min, length, s, x, c, occupied, d);
    var occ := Occupied(s.g, c, occupied);
    var spot := ObstacleSpot(KindOf(ps, s.g, x), length, occ, d.cands, min);
    if spot.Some? {
      PlacedObstacleSound(s, prefabs, holder, prefabs[d.pick % |prefabs|], c, spot.value);
    }
  }

  // ---------------------------------------------------------------------
  // SpawnObstaclesOnActivePlatforms, one slot
  // ---------------------------------------------------------------------

  /** What the maintenance pass does with one slot. */
  datatype Chore = Skip | Fill | TopUp

  /**
   * A null slot is skipped; a platform whose container is empty gets its
   * full content; one whose container holds fewer obstacles than the
   * current maximum gets one more obstacle attempt; any other is skipped.
   */
  function ChoreOf(g: Graph, slot: Option<Platform>, maxObstacles: int): Chore
    requires slot.Some? ==> slot.value.container.Some? && slot.value.container.value in g.kids
  {
    if slot.None? then Skip
    else
      var ks := g.kids[slot.value.container.value];
      if |ks| == 0 then Fill
      else if CountTagged(g.nodes, ks, ObstacleTag) < maxObstacles then TopUp
      else Skip
  }

  lemma CountSnoc(nodes: map<Id, Node>, ks: seq<Id>, x: Id, t: Tag)
    ensures CountTagged(nodes, ks + [x], t) == CountTagged(nodes, ks, t) + (if x in nodes && nodes[x].tag == t then 1 else 0)
  {
    assert (ks + [x])[..|ks|] == ks;
  }

  /** The count of a tag over a child list depends only on the tags of those children. */
  lemma {:induction false} CountSameTags(n1: map<Id, Node>, n2: map<Id, Node>, ks: seq<Id>, t: Tag)
    requires forall y :: y in ks ==> (y in n1 <==> y in n2) && (y in n1 ==> n1[y].tag == n2[y].tag)
    ensures CountTagged(n1, ks, t) == CountTagged(n2, ks, t)
    decreases |ks|
  {
    if ks != [] {
      CountSameTags(n1, n2, ks[..|ks| - 1], t);
    }
  }

  /**
   * One obstacle attempt adds at most one obstacle to the container, so a
   * top-up never takes a container past the current maximum.
   */
  lemma LandingCount(ps: PrefabSet, prefabs: seq<Obstacles.Prefab>, holder: Id, min: real, length: real,
                     s: Obstacles.PoolState, x: Id, c: Id, occupied: seq<Pos>, d: ObstacleDraws)
    requires Obstacles.Managed(s, prefabs, holder) && |prefabs| > 0 && (forall p :: p in prefabs ==> p in s.pools)
    requires x in s.g.nodes && c in s.g.nodes
    ensures c in s.g.kids
    ensures var l := ObstacleLanding(ps, prefabs, min, length, s, x, c, occupied, d);
            var before := CountTagged(s.g.nodes, s.g.kids[c], ObstacleTag);
            && c in l.s.g.kids
            && before <= CountTagged(l.s.g.nodes, l.s.g.kids[c], ObstacleTag) <= before + 1
  {
    var occ := Occupied(s.g, c, occupied);
    var spot := ObstacleSpot(KindOf(ps, s.g, x), length, occ, d.cands, min);
    if spot.Some? {
      var prefab := prefabs[d.pick % |prefabs|];
      PlacedObstacleShape(s, prefabs, holder, prefab, c, spot.value);
      KidsCount(s.g, PlacedObstacle(s, prefab, c, spot.value).g, c, Obstacles.AcquiredId(s, prefab));
    }
  }

  /** A scene change that keeps every old child's tag and adds at most `o` to `c`'s children adds at most one to their count. */
  lemma KidsCount(g: Graph, g': Graph, c: Id, o: Id)
    requires Consistent(g) && c in g.kids && c in g'.kids && g.nodes.Keys <= g'.nodes.Keys
    requires forall y :: y in g.nodes && y != o ==> g'.nodes[y] == g.nodes[y]
    requires o in g.nodes ==> g'.nodes[o].tag == g.nodes[o].tag
    requires g'.kids[c] == g.kids[c] || g'.kids[c] == g.kids[c] + [o]
    ensures var before := CountTagged(g.nodes, g.kids[c], ObstacleTag);
            before <= CountTagged(g'.nodes, g'.kids[c], ObstacleTag) <= before + 1
  {
    var ks := g.kids[c];
    assert forall y :: y in ks ==> y in g.nodes;
    CountSameTags(g.nodes, g'.nodes, ks, ObstacleTag);
    if g'.kids[c] != ks {
      CountSnoc(g'.nodes, ks, o, ObstacleTag);
    }
  }

  /** Hence a top-up keeps a container at or under the maximum. */
  lemma TopUpBounded(ps: PrefabSet, prefabs: seq<Obstacles.Prefab>, holder: Id, min: real, length: real,
                     s: Obstacles.PoolState, x: Id, p: Platform, maxObstacles: int, occupied: seq<Pos>, d: ObstacleDraws)
    requires Obstacles.Managed(s, prefabs, holder) && |prefabs| > 0 && (forall q :: q in prefabs ==> q in s.pools)
    requires x in s.g.nodes && p.container.Some? && p.container.value in s.g.nodes
    requires ChoreOf(s.g, Some(p), maxObstacles) == TopUp
    ensures var c := p.container.value;
            var l := ObstacleLanding(ps, prefabs, min, length, s, x, c, occupied, d);
            c in l.s.g.kids && CountTagged(l.s.g.nodes, l.s.g.kids[c], ObstacleTag) <= maxObstacles
  {
    LandingCount(ps, prefabs, holder, min, length, s, x, p.container.value, occupied, d);
  }
}
