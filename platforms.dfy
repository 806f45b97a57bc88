/**
 * The `PlatformManager` component: the state `Track` models as values,
 * held in fields and updated in place, over the scene shared with the
 * obstacle and coin managers.
 */
module Platforms {
  import opened Options
  import opened Geometry
  import opened Scene
  import opened Turns
  import opened Placement
  import opened Track
  import Names
  import Obstacles
  import Coins

  /** The random draws of one `SpawnContentOnPlatform`: the obstacle attempt's, then the coin manager's. */
  datatype ContentDraws = ContentDraws(obstacle: ObstacleDraws, coins: Coins.CoinDraws)

  /**
   * What one frame of `Update` sees: the player's position, `Time.deltaTime`,
   * the `GetWeightedRandomPrefab` and `GetDifferentTurnPrefab` draws of the
   * new platform, its content draws, and the maintenance pass's draws, one
   * per slot it visits.
   */
  datatype Tick = Tick(player: Pos, deltaTime: real, rand: int, draw: nat, content: ContentDraws, chores: seq<ContentDraws>)

  /** `Instantiate(prefab)` of a platform prototype: the copy and, when the prototype has one, its "Obstacles" child. */
  method InstantiatePlatform(world: World, prefab: PlatformPrefab) returns (x: Id, container: Option<Id>)
    modifies world
    ensures x == old(world.g.next) && world.g == Instantiated(old(world.g), prefab)
    ensures container == ContainerOf(x, prefab)
  {
    x := world.Instantiate(prefab.name, Untagged);
    container := None;
    if prefab.hasContainer {
      var c := world.AddChild("Obstacles", x);
      container := Some(c);
    }
  }

  /** `SetParent(container, false)`, `localPosition = pos`, `SetActive(true)` on an obstacle (its rotation is not modelled). */
  method FitObstacle(world: World, x: Id, c: Id, pos: Pos)
    requires x in world.g.nodes && c in world.g.nodes
    modifies world
    ensures world.g == Fitted(old(world.g), x, c, pos)
  {
    world.SetParent(x, Some(c));
    world.SetLocal(x, pos);
    world.SetActive(x, true);
  }

  /** The `foreach` over a container's children that collects the local positions of those tagged `t` (all, for None). */
  method ChildPositions(world: World, c: Id, t: Option<Tag>) returns (r: seq<Pos>)
    requires c in world.g.kids
    ensures r == PositionsOf(world.g.nodes, world.g.kids[c], t)
  {
    var ks := world.g.kids[c];
    r := [];
    var i := 0;
    while i < |ks|
      invariant 0 <= i <= |ks| && r == PositionsOf(world.g.nodes, ks[..i], t)
    {
      var x := ks[i];
      assert ks[..i + 1][..i] == ks[..i];
      if x in world.g.nodes && (t.None? || world.g.nodes[x].tag == t.value) {
        r := r + [world.g.nodes[x].local];
      }
      i := i + 1;
    }
    assert ks[..i] == ks;
  }

  /** The `foreach` that counts a container's children tagged "Obstacle". */
  method CountObstacles(world: World, c: Id) returns (n: nat)
    requires c in world.g.kids
    ensures n == CountTagged(world.g.nodes, world.g.kids[c], ObstacleTag)
  {
    var ks := world.g.kids[c];
    n := 0;
    var i := 0;
    while i < |ks|
      invariant 0 <= i <= |ks| && n == CountTagged(world.g.nodes, ks[..i], ObstacleTag)
    {
      assert ks[..i + 1][..i] == ks[..i];
      if ks[i] in world.g.nodes && world.g.nodes[ks[i]].tag == ObstacleTag {
        n := n + 1;
      }
      i := i + 1;
    }
    assert ks[..i] == ks;
  }

  /** The inner `foreach` of an attempt: is some occupied position closer than the spacing? */
  method Crowded(p: Pos, occupied: seq<Pos>, min: real) returns (tooClose: bool)
    ensures tooClose == TooClose(p, occupied, min)
  {
    tooClose := false;
    var k := 0;
    while k < |occupied|
      invariant 0 <= k <= |occupied|
      invariant forall j :: 0 <= j < k ==> !Closer(p, occupied[j], min)
    {
      if Closer(p, occupied[k], min) {
        return true;
      }
      k := k + 1;
    }
  }

  /** The attempts loop of `SpawnObstacleOnPlatform`: the first candidate clear of every occupied position. */
  method FindSpot(turn: TurnType, length: real, occupied: seq<Pos>, cands: seq<Candidate>, min: real) returns (spot: Option<Pos>)
    ensures spot == ObstacleSpot(turn, length, occupied, cands, min)
  {
    ghost var ps := ObstaclePositions(turn, length, cands);
    var k := 0;
    while k < |cands|
      invariant 0 <= k <= |cands|
      invariant forall j :: 0 <= j < k ==> TooClose(ps[j], occupied, min)
    {
      var localPos := ObstaclePos(turn, length, cands[k]);
      var tooClose := Crowded(localPos, occupied, min);
      if !tooClose {
        FirstFreeAt(ps, occupied, min, k);
        return Some(localPos);
      }
      k := k + 1;
    }
    return None;
  }

  /**
   * The body of `SpawnObstacleOnPlatform` for the copy `x` with container
   * `c` on a platform `length` long: the obstacles already on the container
   * join the occupied list; the first of the candidates clear of all of them
   * gets an obstacle of a random prototype, parented to the container, at
   * that position, active; its position joins the list.
   */
  method LandObstacle(world: World, om: Obstacles.ObstacleManager, ps: PrefabSet, min: real, length: real,
                      x: Id, c: Id, occupied: seq<Pos>, d: ObstacleDraws) returns (occupied': seq<Pos>)
    requires om.world == world && om.Valid() && om.Complete() && |om.obstaclePrefabs| > 0
    requires x in world.g.nodes && c in world.g.nodes
    modifies world, om
    ensures om.Valid() && old(world.g.nodes.Keys) <= world.g.nodes.Keys
    ensures old(om.Sound()) ==> om.Sound() && Confined(old(world.g), world.g, {Some(om.holder)})
    ensures var l := ObstacleLanding(ps, om.obstaclePrefabs, min, length, Obstacles.PoolState(old(world.g), old(om.pools)), x, c, occupied, d);
            Obstacles.PoolState(world.g, om.pools) == l.s && occupied' == l.occupied
  {
    ghost var s0 := Obstacles.PoolState(world.g, om.pools);
    var turn := GetTurnType(ps, GetPrefabFromInstance(ps, world.g.nodes[x].name));
    var existing := ChildPositions(world, c, Some(ObstacleTag));
    occupied' := occupied + existing;
    var spot := FindSpot(turn, length, occupied', d.cands, min);
    if spot.Some? {
      var prefab := om.GetRandomObstaclePrefab(d.pick);
      var obstacle := om.GetObstacle(prefab);
      FitObstacle(world, obstacle, c, spot.value);
      occupied' := occupied' + [spot.value];
      PlacedObstacleShape(s0, om.obstaclePrefabs, om.holder, prefab, c, spot.value);
    }
    if Obstacles.PoolsSound(s0, om.holder) {
      LandingSound(ps, om.obstaclePrefabs, om.holder, min, length, s0, x, c, occupied, d);
    }
  }

  /**
   * Fetching and laying the next platform keeps the track invariant, the
   * copies' invariant and the cursor's window, and, since it changes only
   * root objects, both managers' invariants and pool invariants.
   */
  lemma NextLaidManaged(ps: PrefabSet, place: (Pose, Pose) -> Pose, forwardOf: Rot -> Pos, ceiling: int,
                        s: TrackState, g: Graph, chosen: PlatformPrefab, draw: nat,
                        os: Obstacles.PoolState, prefabs: seq<Obstacles.Prefab>, oh: Id, cs: Coins.CoinState, ch: Id)
    requires TrackOk(ps, forwardOf, {oh, ch}, ceiling, s, g) && CopiesSound(s, g) && CursorAtEnd(s) && {oh, ch} <= g.nodes.Keys
    requires ps.left in s.pools && ps.right in s.pools && (chosen == ps.left || chosen == ps.right)
    requires os.g == g && cs.g == g
    requires Obstacles.Managed(os, prefabs, oh) && Obstacles.PoolsSound(os, oh) && Coins.CoinsManaged(cs, ch) && Coins.CoinsSound(cs, ch)
    ensures var st := NextLaid(ps, place, forwardOf, s, g, chosen, draw);
            && TrackOk(ps, forwardOf, {oh, ch}, ceiling, st.s, st.g) && CopiesSound(st.s, st.g) && CursorAtEnd(st.s)
            && ManagersKept(os, prefabs, oh, cs, ch, st.g)
  {
    var st := NextLaid(ps, place, forwardOf, s, g, chosen, draw);
    NextLaidKept(ps, place, forwardOf, {oh, ch}, ceiling, s, g, chosen, draw);
    ManagersMoved(os, prefabs, oh, cs, ch, st.g, {None});
  }

  /** Both managers' invariants and pool invariants, over the scene `g`. */
  ghost predicate ManagersKept(os: Obstacles.PoolState, prefabs: seq<Obstacles.Prefab>, oh: Id, cs: Coins.CoinState, ch: Id, g: Graph) {
    && Obstacles.Managed(Obstacles.PoolState(g, os.pools), prefabs, oh) && Obstacles.PoolsSound(Obstacles.PoolState(g, os.pools), oh)
    && Coins.CoinsManaged(cs.(g := g), ch) && Coins.CoinsSound(cs.(g := g), ch)
  }

  /**
   * An update of the shared scene that keeps it consistent, removes no
   * object and changes only children of `touched` keeps both managers'
   * invariants and pool invariants, when neither manager's object is in
   * `touched`.
   */
  lemma ManagersMoved(os: Obstacles.PoolState, prefabs: seq<Obstacles.Prefab>, oh: Id, cs: Coins.CoinState, ch: Id,
                      g: Graph, touched: set<Option<Id>>)
    requires Obstacles.Managed(os, prefabs, oh) && Obstacles.PoolsSound(os, oh)
    requires Coins.CoinsManaged(cs, ch) && Coins.CoinsSound(cs, ch) && cs.g == os.g
    requires Consistent(g) && os.g.nodes.Keys <= g.nodes.Keys
    requires Confined(os.g, g, touched) && Some(oh) !in touched && Some(ch) !in touched
    ensures ManagersKept(os, prefabs, oh, cs, ch, g)
  {
    Obstacles.ManagedMoved(os, prefabs, oh, g);
    Obstacles.PoolsSoundMoved(os, oh, g, touched);
    Coins.CoinsMoved(cs, ch, g);
    Coins.CoinsSoundMoved(cs, ch, g, touched);
  }

  /** First fit is determined: a clear position with only crowded ones before it is the one it finds. */
  lemma FirstFreeAt(ps: seq<Pos>, occ: seq<Pos>, min: real, k: nat)
    requires k < |ps| && !TooClose(ps[k], occ, min)
    requires forall j :: 0 <= j < k ==> TooClose(ps[j], occ, min)
    ensures FirstFree(ps, occ, min) == Some(k)
  {
  }

  class PlatformManager {
    const world: World
    const obstacleManager: Obstacles.ObstacleManager
    const coinManager: Coins.CoinManager
    /** `straightPlatformPrefab`, `leftTurnPlatformPrefab`, `rightTurnPlatformPrefab`. */
    const prefabs: PrefabSet
    const settings: TrackSettings
    /** The engine's transform arithmetic: a child's local pose carried into the world by its parent's pose. */
    const place: (Pose, Pose) -> Pose
    /** `Vector3.Distance`. */
    const distance: (Pos, Pos) -> real
    /** `transform.forward` of a rotation. */
    const forwardOf: Rot -> Pos

    var platformPools: map<PlatformPrefab, seq<Id>>
    /** What `transform.Find` sees in each platform copy made so far. */
    var instances: map<Id, Instance>
    var activePlatforms: Slots
    /** `currentPosition` and `currentRotation`. */
    var cursor: Pose
    var playerPlatformIndex: int
    var lastTurn: Option<TurnType>
    var consecutiveTurnCount: int
    var obstacleTimer: real
    var currentMaxObstacles: int
    var hasStartedSpawningObstacles: bool

    function State(): TrackState
      reads this
    {
      TrackState(platformPools, instances, activePlatforms, cursor, playerPlatformIndex, lastTurn, consecutiveTurnCount,
                 Ramp(hasStartedSpawningObstacles, obstacleTimer, currentMaxObstacles))
    }

    /** The two managers' own objects, which no platform container may be. */
    function Holders(): set<Id> {
      {obstacleManager.holder, coinManager.holder}
    }

    function Ceiling(): int {
      settings.maxObstaclesMaxDifficulty
    }

    /**
     * The three managers share one consistent scene; each keeps its own
     * invariant and its pool invariant; the obstacle manager has a pool for
     * every obstacle prototype; both turn prototypes come with an
     * "Obstacles" child.
     */
    ghost predicate Valid()
      reads this, world, obstacleManager, coinManager
    {
      && Linked() && ManagersOk() && TrackOk(prefabs, forwardOf, Holders(), Ceiling(), State(), world.g)
      && CopiesSound(State(), world.g)
    }

    /** The managers work on this manager's scene and have objects of their own. */
    predicate Linked()
      reads this, obstacleManager, coinManager
    {
      && obstacleManager.world == world && coinManager.world == world
      && obstacleManager.holder != coinManager.holder
    }

    /**
     * What placing content needs: an obstacle prototype to draw
     * (ObstacleManager.cs:29), and an "Obstacles" child on both turn
     * prototypes, whose copies' containers are counted and searched.
     */
    predicate Equipped()
      reads this
    {
      |obstacleManager.obstaclePrefabs| > 0 && prefabs.left.hasContainer && prefabs.right.hasContainer
    }

    /**
     * Recycling slot `index` can sweep its container: there is an obstacle
     * prototype to resolve names against (ObstacleManager.cs:75), or there
     * is nothing to sweep.
     */
    ghost predicate Sweepable(index: int)
      reads this`activePlatforms, world
    {
      || |obstacleManager.obstaclePrefabs| > 0
      || !(0 <= index < |activePlatforms|) || activePlatforms[index].None? || activePlatforms[index].value.container.None?
      || var c := activePlatforms[index].value.container.value;
         c in world.g.kids && world.g.kids[c] == []
    }

    /** Both managers keep their own invariants and pool invariants, and every obstacle prototype has a pool. */
    ghost predicate ManagersOk()
      reads obstacleManager, obstacleManager.world, coinManager, coinManager.world
    {
      && obstacleManager.Valid() && obstacleManager.Complete() && coinManager.Valid()
      && obstacleManager.Sound() && coinManager.Sound()
    }

    /**
     * The invariant, from its parts stated on values: the fields hold `s`,
     * the scene is `g`, and the managers hold the pools of `os` and the coins
     * of `cs`, moved onto `g`.
     */
    lemma Revalidated(s: TrackState, g: Graph, os: Obstacles.PoolState, cs: Coins.CoinState)
      requires Linked() && obstacleManager.Complete()
      requires State() == s && world.g == g && obstacleManager.pools == os.pools && coinManager.State() == cs.(g := g)
      requires TrackOk(prefabs, forwardOf, Holders(), Ceiling(), s, g) && CopiesSound(s, g)
      requires ManagersKept(os, obstacleManager.obstaclePrefabs, obstacleManager.holder, cs, coinManager.holder, g)
      ensures Valid()
    {
    }

    /**
     * Fetching and laying the next platform, as `NextLaid` states it, keeps
     * the invariant: the parts of it that held before are stated on the old
     * values `s`, `g`, `os` and `cs`.
     */
    lemma LaidValid(s: TrackState, g: Graph, os: Obstacles.PoolState, cs: Coins.CoinState, chosen: PlatformPrefab, draw: nat)
      requires Linked() && obstacleManager.Complete()
      requires TrackOk(prefabs, forwardOf, Holders(), Ceiling(), s, g) && CopiesSound(s, g) && CursorAtEnd(s) && Holders() <= g.nodes.Keys
      requires os.g == g && cs.g == g
      requires Obstacles.Managed(os, obstacleManager.obstaclePrefabs, obstacleManager.holder) && Obstacles.PoolsSound(os, obstacleManager.holder)
      requires Coins.CoinsManaged(cs, coinManager.holder) && Coins.CoinsSound(cs, coinManager.holder)
      requires prefabs.left in s.pools && prefabs.right in s.pools && (chosen == prefabs.left || chosen == prefabs.right)
      requires var st := NextLaid(prefabs, place, forwardOf, s, g, chosen, draw);
               && State() == st.s && world.g == st.g && obstacleManager.pools == os.pools && coinManager.State() == cs.(g := st.g)
      ensures Valid() && Ready() && CursorAtEnd(State())
    {
      var st := NextLaid(prefabs, place, forwardOf, s, g, chosen, draw);
      NextLaidManaged(prefabs, place, forwardOf, Ceiling(), s, g, chosen, draw,
                      os, obstacleManager.obstaclePrefabs, obstacleManager.holder, cs, coinManager.holder);
      Revalidated(st.s, st.g, os, cs);
    }

    /**
     * After the first half of `RecyclePlatformAtIndex`, when the fields and
     * the scene hold `Recycled` of the old values `s` and `g`, the invariant
     * holds: both managers keep theirs and their pool invariants, and the
     * track keeps its own and the copies'.
     */
    lemma UnslottedOk(s: TrackState, g: Graph, os: Obstacles.PoolState, cs: Coins.CoinState, index: int)
      requires Linked() && obstacleManager.Complete()
      requires TrackOk(prefabs, forwardOf, Holders(), Ceiling(), s, g) && CopiesSound(s, g) && Consistent(g)
      requires os.g == g && cs.g == g
      requires Obstacles.Managed(os, obstacleManager.obstaclePrefabs, obstacleManager.holder) && Obstacles.PoolsSound(os, obstacleManager.holder)
      requires Coins.CoinsManaged(cs, coinManager.holder) && Coins.CoinsSound(cs, coinManager.holder)
      requires 0 <= index < |s.slots| && s.slots[index].Some?
      requires var r := Recycled(prefabs, s, g, index);
               && State() == r.s && world.g == r.g && obstacleManager.pools == os.pools && coinManager.State() == cs.(g := r.g)
      ensures Valid()
      ensures world.g.nodes.Keys == g.nodes.Keys && (CursorAtEnd(s) ==> CursorAtEnd(State()))
    {
      RecycledOk(prefabs, forwardOf, Holders(), Ceiling(), s, g, index);
      RecycledSound(prefabs, s, g, index);
      ManagersMoved(os, obstacleManager.obstaclePrefabs, obstacleManager.holder, cs, coinManager.holder, world.g, {None});
    }

    /**
     * After the second half of `RecyclePlatformAtIndex`, which changes only
     * children of the container `c` and keeps both managers' invariants, the
     * invariant holds again.
     */
    lemma ClearedValid(s: TrackState, g: Graph, c: Id)
      requires Linked() && obstacleManager.Complete()
      requires obstacleManager.Valid() && coinManager.Valid() && obstacleManager.Sound() && coinManager.Sound()
      requires TrackOk(prefabs, forwardOf, Holders(), Ceiling(), s, g) && CopiesSound(s, g) && State() == s
      requires Confined(g, world.g, {Some(c)}) && g.nodes.Keys <= world.g.nodes.Keys
      ensures Valid()
    {
      TrackOkMoved(prefabs, forwardOf, Holders(), Ceiling(), s, g, world.g);
      CopiesSoundMoved(s, g, world.g, {Some(c)});
    }

    /** Both turn prototypes have a pool (true from `Awake` on). */
    predicate Ready()
      reads this`platformPools
    {
      prefabs.left in platformPools && prefabs.right in platformPools
    }

    /** The window `Update` keeps (true from `Start` on). */
    predicate Windowed()
      reads this
    {
      Track.Windowed(State())
    }

    constructor (world: World, obstacleManager: Obstacles.ObstacleManager, coinManager: Coins.CoinManager,
                 prefabs: PrefabSet, settings: TrackSettings,
                 place: (Pose, Pose) -> Pose, distance: (Pos, Pos) -> real, forwardOf: Rot -> Pos)
      requires obstacleManager.world == world && coinManager.world == world
      requires obstacleManager.Valid() && obstacleManager.Complete() && coinManager.Valid()
      requires obstacleManager.Sound() && coinManager.Sound() && obstacleManager.holder != coinManager.holder
      ensures Valid()
      ensures this.world == world && this.obstacleManager == obstacleManager && this.coinManager == coinManager
      ensures this.prefabs == prefabs && this.settings == settings
      ensures this.place == place && this.distance == distance && this.forwardOf == forwardOf
      ensures State() == TrackState(map[], map[], [], Pose(Origin, Identity), 0, None, 0, Ramp(false, 0.0, 1))
    {
      this.world := world;
      this.obstacleManager := obstacleManager;
      this.coinManager := coinManager;
      this.prefabs := prefabs;
      this.settings := settings;
      this.place := place;
      this.distance := distance;
      this.forwardOf := forwardOf;
      platformPools := map[];
      instances := map[];
      activePlatforms := [];
      cursor := Pose(Origin, Identity);
      playerPlatformIndex := 0;
      lastTurn := None;
      consecutiveTurnCount := 0;
      obstacleTimer := 0.0;
      currentMaxObstacles := 1;
      hasStartedSpawningObstacles := false;
    }

    /** `CreatePool(prefab)`: `poolSizePerType` copies, each deactivated and enqueued in creation order. */
    method CreatePool(prefab: PlatformPrefab) returns (pool: seq<Id>)
      modifies this`instances, world
      ensures var st := Stocked(Stock(old(world.g), old(instances), []), prefab, settings.poolSizePerType);
              world.g == st.g && instances == st.instances && pool == st.pool
    {
      ghost var st0 := Stock(world.g, instances, []);
      var n := settings.poolSizePerType;
      pool := [];
      var i := 0;
      while i < n
        invariant 0 <= i <= n
        invariant Stocked(Stock(world.g, instances, pool), prefab, n - i) == Stocked(st0, prefab, n)
      {
        var obj, container := InstantiatePlatform(world, prefab);
        world.SetActive(obj, false);
        instances := instances[obj := Instance(prefab, container)];
        pool := pool + [obj];
        i := i + 1;
      }
    }

    /** `Awake`: a pool for the left turn prototype, then one for the right (the straight prototype gets none). */
    method Awake()
      requires Valid()
      modifies this`platformPools, this`instances, world
      ensures Valid() && Ready()
      ensures var n := settings.poolSizePerType;
              var st1 := Stocked(Stock(old(world.g), old(instances), []), prefabs.left, n);
              var st2 := Stocked(Stock(st1.g, st1.instances, []), prefabs.right, n);
              && world.g == st2.g && instances == st2.instances
              && platformPools == old(platformPools)[prefabs.left := st1.pool][prefabs.right := st2.pool]
    {
      ghost var s0, g0, n := State(), world.g, settings.poolSizePerType;
      ghost var st1 := Stocked(Stock(g0, s0.instances, []), prefabs.left, n);
      ghost var st2 := Stocked(Stock(st1.g, st1.instances, []), prefabs.right, n);
      var left := CreatePool(prefabs.left);
      platformPools := platformPools[prefabs.left := left];
      var right := CreatePool(prefabs.right);
      platformPools := platformPools[prefabs.right := right];
      assert State() == s0.(pools := s0.pools[prefabs.left := st1.pool][prefabs.right := st2.pool], instances := st2.instances);
      AwakeOk(prefabs, forwardOf, Holders(), Ceiling(), s0, g0, n);
      AwakeSound(prefabs, s0, g0, n);
      Obstacles.ManagedMoved(Obstacles.PoolState(g0, obstacleManager.pools), obstacleManager.obstaclePrefabs,
                             obstacleManager.holder, world.g);
      Obstacles.PoolsSoundMoved(Obstacles.PoolState(g0, obstacleManager.pools), obstacleManager.holder, world.g, {});
      Coins.CoinsMoved(coinManager.State().(g := g0), coinManager.holder, world.g);
      Coins.CoinsSoundMoved(coinManager.State().(g := g0), coinManager.holder, world.g, {});
    }
    /** The prototype choice of `GetNextPlatform`: a streak-extending turn is swapped for a different one. */
    method SettlePrefab(chosen: PlatformPrefab, draw: nat) returns (prefab: PlatformPrefab, currentTurn: TurnType)
      ensures prefab == PickedPrefab(prefabs, State(), chosen, draw) && currentTurn == GetTurnType(prefabs, prefab)
    {
      prefab := chosen;
      currentTurn := GetTurnType(prefabs, prefab);
      if lastTurn.Some? && currentTurn == lastTurn.value && currentTurn != Straight {
        if consecutiveTurnCount >= MaxConsecutiveSameTurns {
          prefab := GetDifferentTurnPrefab(prefabs, currentTurn, draw);
          currentTurn := GetTurnType(prefabs, prefab);
        }
      }
    }

    /** `pool.Count > 0 ? pool.Dequeue() : Instantiate(prefab)`, then `SetActive(false)`. */
    method DrawCopy(prefab: PlatformPrefab) returns (obj: Id)
      requires prefab in platformPools && forall x :: x in platformPools[prefab] ==> x in world.g.nodes
      modifies this`platformPools, this`instances, world
      ensures obj == PickedId(old(State()), prefab, old(world.g.next))
      ensures var s := Drawn(old(State()), prefab, old(world.g.next));
              platformPools == s.pools && instances == s.instances
      ensures world.g == DrawnScene(old(State()), old(world.g), prefab)
    {
      var pool := platformPools[prefab];
      if |pool| > 0 {
        obj := pool[0];
        platformPools := platformPools[prefab := pool[1..]];
      } else {
        var container;
        obj, container := InstantiatePlatform(world, prefab);
        instances := instances[obj := Instance(prefab, container)];
      }
      world.SetActive(obj, false);
    }

    /**
     * `GetNextPlatform(forcedPrefab)`: the forced prototype or a weighted draw,
     * settled against the streak; a copy drawn from its pool; null when the
     * copy has no "EndPoint", otherwise the streak records the turn. The
     * new state and scene are `Taken` and `TakenScene` of the old ones.
     */
    method GetNextPlatform(forced: Option<PlatformPrefab>, rand: int, draw: nat) returns (r: Option<Platform>)
      requires Ready() && PoolsKnown(State())
      requires PoolsInScene(State(), world.g)
      requires forced.Some? ==> forced.value == prefabs.left || forced.value == prefabs.right
      modifies this`platformPools, this`instances, this`lastTurn, this`consecutiveTurnCount, world
      ensures var chosen := if forced.Some? then forced.value else WeightedPrefab(prefabs, rand);
              var pick := Taken(prefabs, old(State()), old(world.g.next), chosen, draw);
              && State() == pick.s && r == pick.out
              && world.g == TakenScene(prefabs, old(State()), old(world.g), chosen, draw)
    {
      var chosen := if forced.Some? then forced.value else WeightedPrefab(prefabs, rand);
      var prefab, currentTurn := SettlePrefab(chosen, draw);
      var obj := DrawCopy(prefab);
      var end := instances[obj].prefab.endPoint;
      if end.None? {
        r := None;
      } else {
        if lastTurn == Some(currentTurn) {
          consecutiveTurnCount := consecutiveTurnCount + 1;
        } else {
          consecutiveTurnCount := 1;
        }
        lastTurn := Some(currentTurn);
        r := Some(Platform(obj, end.value, Origin, Origin, 0, None));
      }
    }
    /**
     * `platform.gameObject.transform.SetPositionAndRotation(current...)`,
     * `SetActive(true)`, the cursor moved to the platform's "EndPoint", and
     * the record filled in: where it starts, which way it faces, its container.
     */
    method SpawnPlatform(p: Platform) returns (q: Platform)
      requires p.obj in instances && p.obj in world.g.nodes
      modifies this`cursor, world
      ensures q == Laid(place, forwardOf, old(cursor), p, instances[p.obj].container)
      ensures cursor == q.endPoint && world.g == LaidScene(old(world.g), p.obj, old(cursor))
    {
      world.SetLocal(p.obj, cursor.position);
      world.SetActive(p.obj, true);
      var startPosition, forwardDirection := cursor.position, forwardOf(cursor.rotation);
      var end := place(cursor, p.endPoint);
      cursor := end;
      q := p.(endPoint := end, startPosition := startPosition, forwardDirection := forwardDirection,
              container := instances[p.obj].container);
    }

    /**
     * The first half of `RecyclePlatformAtIndex`: the slot's copy
     * deactivated, enqueued when its prototype has a pool, the slot nulled.
     * Both managers keep their invariants, and so does the track.
     */
    method Unslot(index: int)
      requires Valid()
      requires 0 <= index < |activePlatforms| && activePlatforms[index].Some?
      modifies this`platformPools, this`activePlatforms, world
      ensures var st := Recycled(prefabs, old(State()), old(world.g), index);
              State() == st.s && world.g == st.g
      ensures Valid()
      ensures world.g.nodes.Keys == old(world.g.nodes.Keys) && (CursorAtEnd(old(State())) ==> CursorAtEnd(State()))
    {
      ghost var s0, g0 := State(), world.g;
      ghost var os0, cs0 := Obstacles.PoolState(g0, obstacleManager.pools), coinManager.State();
      assert Obstacles.Managed(os0, obstacleManager.obstaclePrefabs, obstacleManager.holder) && Coins.CoinsManaged(cs0, coinManager.holder);
      assert activePlatforms[index].value.obj in instances;
      var platform := activePlatforms[index].value;
      world.SetActive(platform.obj, false);
      var prefab := GetPrefabFromInstance(prefabs, world.g.nodes[platform.obj].name);
      if prefab in platformPools {
        platformPools := platformPools[prefab := platformPools[prefab] + [platform.obj]];
      }
      activePlatforms := activePlatforms[index := None];
      UnslottedOk(s0, g0, os0, cs0, index);
    }

    /**
     * `RecyclePlatformAtIndex(index)`: out of range, nothing happens (a null
     * slot in range is dereferenced by the source, so the caller must not
     * pass one). Otherwise the copy goes back to its pool, the slot becomes
     * null, and the copy's container, when it has one, is emptied by the
     * obstacle manager, which takes back every child whatever its tag, and
     * then by the coin manager, which therefore finds nothing left: the coin
     * manager's pool, active list and score are untouched.
     */
    method RecyclePlatformAtIndex(index: int)
      requires Valid() && Sweepable(index)
      requires 0 <= index < |activePlatforms| ==> activePlatforms[index].Some?
      modifies this`platformPools, this`activePlatforms, world, obstacleManager, coinManager
      ensures Valid()
      ensures var st := Recycled(prefabs, old(State()), old(world.g), index);
              State() == st.s
      ensures activePlatforms == Recycle(old(activePlatforms), index) && cursor == old(cursor) && platformPools.Keys == old(platformPools.Keys)
      ensures CursorAtEnd(old(State())) ==> CursorAtEnd(State())
      ensures !(0 <= index < old(|activePlatforms|)) ==>
                world.g == old(world.g) && obstacleManager.pools == old(obstacleManager.pools)
                && coinManager.State() == old(coinManager.State())
      ensures 0 <= index < old(|activePlatforms|) ==>
                var st := Recycled(prefabs, old(State()), old(world.g), index);
                var os := Obstacles.Sweep(Obstacles.PoolState(st.g, old(obstacleManager.pools)), obstacleManager.obstaclePrefabs,
                                          obstacleManager.holder, ContainerKids(st.g, old(activePlatforms[index]).value));
                && world.g == os.g && obstacleManager.pools == os.pools
                && coinManager.State() == old(coinManager.State()).(g := os.g)
    {
      if index < 0 || index >= |activePlatforms| {
        return;
      }
      ghost var s0, g0 := State(), world.g;
      RecycleSlot(index);
      RecycledOk(prefabs, forwardOf, Holders(), Ceiling(), s0, g0, index);
    }

    /** `RecyclePlatformAtIndex` for an index in range. */
    method RecycleSlot(index: int)
      requires Valid() && Sweepable(index)
      requires 0 <= index < |activePlatforms| && activePlatforms[index].Some?
      modifies this`platformPools, this`activePlatforms, world, obstacleManager, coinManager
      ensures Valid()
      ensures var st := Recycled(prefabs, old(State()), old(world.g), index);
              State() == st.s
      ensures var st := Recycled(prefabs, old(State()), old(world.g), index);
              var os := Obstacles.Sweep(Obstacles.PoolState(st.g, old(obstacleManager.pools)), obstacleManager.obstaclePrefabs,
                                        obstacleManager.holder, ContainerKids(st.g, old(activePlatforms[index]).value));
              && world.g == os.g && obstacleManager.pools == os.pools
              && coinManager.State() == old(coinManager.State()).(g := os.g)
    {
      var platform := activePlatforms[index].value;
      assert platform.container.Some? ==> platform.container.value in world.g.nodes && platform.container.value !in Holders() by {
        assert platform.obj in instances;
      }
      ghost var kids0 := world.g.kids;
      Unslot(index);
      if platform.container.Some? {
        assert world.g.kids == kids0;
        ghost var g1 := world.g;
        ghost var os1 := Obstacles.Sweep(Obstacles.PoolState(g1, obstacleManager.pools), obstacleManager.obstaclePrefabs,
                                         obstacleManager.holder, g1.kids[platform.container.value]);
        ghost var cs1 := coinManager.State();
        ClearContainer(platform.container.value);
        assert world.g == os1.g && obstacleManager.pools == os1.pools && coinManager.State() == cs1.(g := os1.g);
      }
    }

    /**
     * The second half of `RecyclePlatformAtIndex`: `ReturnAllObstacles` and
     * then `ReturnAllCoins` on the container. The obstacle sweep leaves the
     * container empty, so the coin sweep changes nothing. The invariant is
     * kept.
     */
    method ClearContainer(c: Id)
      requires Valid()
      requires c in world.g.nodes && c !in Holders() && (|obstacleManager.obstaclePrefabs| > 0 || world.g.kids[c] == [])
      modifies world, obstacleManager, coinManager
      ensures Valid()
      ensures Confined(old(world.g), world.g, {Some(c)})
      ensures var os := Obstacles.Sweep(Obstacles.PoolState(old(world.g), old(obstacleManager.pools)), obstacleManager.obstaclePrefabs,
                                        obstacleManager.holder, old(world.g.kids[c]));
              && world.g == os.g && obstacleManager.pools == os.pools
              && coinManager.State() == old(coinManager.State()).(g := os.g)
      ensures world.g.nodes.Keys == old(world.g.nodes.Keys) && obstacleManager.pools.Keys == old(obstacleManager.pools.Keys)
    {
      ghost var os0, cs0 := Obstacles.PoolState(world.g, obstacleManager.pools), coinManager.State();
      ghost var s0 := State();
      if |obstacleManager.obstaclePrefabs| > 0 {
        Obstacles.SweepClears(os0, obstacleManager.obstaclePrefabs, obstacleManager.holder, c, world.g.kids[c]);
      }
      Obstacles.SweepConsistent(os0, obstacleManager.obstaclePrefabs, obstacleManager.holder, world.g.kids[c]);
      Obstacles.SweepPoolKeys(os0, obstacleManager.obstaclePrefabs, obstacleManager.holder, world.g.kids[c]);
      Obstacles.SweepChildrenSound(os0, obstacleManager.obstaclePrefabs, obstacleManager.holder, c);
      obstacleManager.ReturnAllObstacles(c);
      assert coinManager.State() == cs0.(g := world.g);
      Coins.CoinsMoved(cs0, coinManager.holder, world.g);
      Coins.CoinsSoundMoved(cs0, coinManager.holder, world.g, {Some(c)});
      ghost var g1 := world.g;
      coinManager.ReturnAllCoins(c);
      assert world.g == g1;
      ClearedValid(s0, os0.g, c);
    }

    /**
     * `SpawnObstacleOnPlatform(platform, occupiedPositions)`: the obstacles
     * already on the container join the occupied list; the first of the ten
     * candidates clear of all of them gets an obstacle of a random prototype,
     * parented to the container, at that position, active; its position
     * joins the list.
     */
    method SpawnObstacleOnPlatform(p: Platform, occupied: seq<Pos>, d: ObstacleDraws) returns (occupied': seq<Pos>)
      requires Valid() && |obstacleManager.obstaclePrefabs| > 0
      requires p.obj in world.g.nodes && p.container.Some? && p.container.value in world.g.nodes
      modifies world, obstacleManager
      ensures Valid()
      ensures var l := ObstacleLanding(prefabs, obstacleManager.obstaclePrefabs, settings.minObstacleSpacing,
                                       distance(p.startPosition, p.endPoint.position),
                                       Obstacles.PoolState(old(world.g), old(obstacleManager.pools)), p.obj, p.container.value, occupied, d);
              Obstacles.PoolState(world.g, obstacleManager.pools) == l.s && occupied' == l.occupied
    ensures old(world.g.nodes.Keys) <= world.g.nodes.Keys
    {
      ghost var s0, g0, cs0 := State(), world.g, coinManager.State();
      assert Coins.CoinsManaged(cs0, coinManager.holder) && TrackOk(prefabs, forwardOf, Holders(), Ceiling(), s0, g0);
      var length := distance(p.startPosition, p.endPoint.position);
      occupied' := LandObstacle(world, obstacleManager, prefabs, settings.minObstacleSpacing, length, p.obj, p.container.value, occupied, d);
      assert coinManager.State() == cs0.(g := world.g) && State() == s0;
      Coins.CoinsMoved(cs0, coinManager.holder, world.g);
      Coins.CoinsSoundMoved(cs0, coinManager.holder, world.g, {Some(obstacleManager.holder)});
      TrackOkMoved(prefabs, forwardOf, Holders(), Ceiling(), s0, g0, world.g);
      CopiesSoundMoved(s0, g0, world.g, {Some(obstacleManager.holder)});
    }
    /**
     * `SpawnContentOnPlatform(platform)`: nothing before obstacles have
     * started; otherwise one obstacle attempt from an empty occupied list,
     * then the coin manager's coins, kept clear of what that attempt left
     * occupied.
     */
    method SpawnContentOnPlatform(p: Platform, d: ContentDraws)
      requires Valid() && p.obj in world.g.nodes
      requires hasStartedSpawningObstacles ==>
                 |obstacleManager.obstaclePrefabs| > 0 && p.container.Some? && p.container.value in world.g.nodes
      requires |d.coins.cands| == Attempts
      modifies world, obstacleManager, coinManager
      ensures Valid() && unchanged(this)
      ensures ContentSpawned(p, d, old(world.g), old(obstacleManager.pools), old(coinManager.State()))
      ensures old(world.g.nodes.Keys) <= world.g.nodes.Keys
    {
      if !hasStartedSpawningObstacles {
        return;
      }
      ghost var s0, g0, cs0 := State(), world.g, coinManager.State();
      var occupied := SpawnObstacleOnPlatform(p, [], d.obstacle);
      ghost var os1, g1 := Obstacles.PoolState(world.g, obstacleManager.pools), world.g;
      ghost var cs1 := coinManager.State();
      assert cs1 == cs0.(g := world.g) && State() == s0;
      var length := distance(p.startPosition, p.endPoint.position);
      var c := p.container.value;
      var placed := coinManager.SpawnCoinsOnPlatform(c, length, occupied, d.coins);
      assert obstacleManager.pools == os1.pools && State() == s0;
      Coins.PlacedAllManaged(cs1, coinManager.holder, coinManager.coinName, coinManager.coinTag, c, Coins.CoinPlan(coinManager.settings, length, occupied, d.coins));
      Obstacles.ManagedMoved(os1, obstacleManager.obstaclePrefabs, obstacleManager.holder, world.g);
      Obstacles.PoolsSoundMoved(os1, obstacleManager.holder, world.g, {Some(coinManager.holder)});
      TrackOkMoved(prefabs, forwardOf, Holders(), Ceiling(), s0, g0, world.g);
      CopiesSoundMoved(s0, g1, world.g, {Some(coinManager.holder)});
    }
    /**
     * What `SpawnContentOnPlatform(p)` leaves, from the scene `g`, obstacle
     * pools `pools` and coin manager state `cs` it started from: nothing
     * changed before obstacles have started; otherwise the obstacle pools as
     * one obstacle attempt from an empty occupied list leaves them, and the
     * coin manager's state (whose scene is the shared one) as placing the
     * coins its plan chooses, clear of what that attempt left occupied,
     * leaves it.
     */
    ghost predicate ContentSpawned(p: Platform, d: ContentDraws, g: Graph, pools: Obstacles.Pools, cs: Coins.CoinState)
      reads this, world, obstacleManager, coinManager, coinManager.world
      requires p.obj in g.nodes
      requires hasStartedSpawningObstacles ==> |obstacleManager.obstaclePrefabs| > 0 && p.container.Some? && p.container.value in g.kids
      requires Obstacles.Managed(Obstacles.PoolState(g, pools), obstacleManager.obstaclePrefabs, obstacleManager.holder)
      requires forall q :: q in obstacleManager.obstaclePrefabs ==> q in pools
    {
      if !hasStartedSpawningObstacles then
        world.g == g && obstacleManager.pools == pools && coinManager.State() == cs
      else
        var c, length := p.container.value, distance(p.startPosition, p.endPoint.position);
        var l := ObstacleLanding(prefabs, obstacleManager.obstaclePrefabs, settings.minObstacleSpacing, length,
                                 Obstacles.PoolState(g, pools), p.obj, c, [], d.obstacle);
        var placed := Coins.CoinPlan(coinManager.settings, length, l.occupied, d.coins);
        && obstacleManager.pools == l.s.pools
        && coinManager.State() == Coins.PlacedAll(cs.(g := l.s.g), coinManager.coinName, coinManager.coinTag, c, placed)
    }

    /** `GetOccupiedPositions(platform)`: the local positions of all the container's children, whatever their tag. */
    method GetOccupiedPositions(p: Platform) returns (r: seq<Pos>)
      requires p.container.Some? && p.container.value in world.g.kids
      ensures r == PositionsOf(world.g.nodes, world.g.kids[p.container.value], None)
    {
      r := ChildPositions(world, p.container.value, None);
    }

    /**
     * One slot of `SpawnObstaclesOnActivePlatforms`: a null slot is skipped;
     * a platform with an empty container gets its content; one holding fewer
     * obstacles than the current maximum gets one more obstacle attempt,
     * checked against all its children, which leaves it at or under the
     * maximum; any other is left alone.
     */
    method MaintainSlot(i: int, d: ContentDraws)
      requires Valid() && Equipped() && 0 <= i < |activePlatforms| && |d.coins.cands| == Attempts
      modifies world, obstacleManager, coinManager
      ensures Valid() && old(world.g.nodes.Keys) <= world.g.nodes.Keys
      ensures old(activePlatforms[i]).Some? ==> old(activePlatforms[i]).value.container.Some?
      ensures var slot := old(activePlatforms[i]);
              var chore := ChoreOf(old(world.g), slot, currentMaxObstacles);
              && (chore == Skip ==>
                    world.g == old(world.g) && obstacleManager.pools == old(obstacleManager.pools) && coinManager.State() == old(coinManager.State()))
              && (chore == Fill ==> ContentSpawned(slot.value, d, old(world.g), old(obstacleManager.pools), old(coinManager.State())))
              && (chore == TopUp ==>
                    && ToppedUp(slot.value, d.obstacle, old(world.g), old(obstacleManager.pools))
                    && coinManager.State() == old(coinManager.State()).(g := world.g))
    {
      var slot := activePlatforms[i];
      if slot.None? {
        return;
      }
      var platform := slot.value;
      assert platform.obj in instances;
      var c := platform.container.value;
      var hasContent := |world.g.kids[c]| > 0;
      if !hasContent {
        SpawnContentOnPlatform(platform, d);
      } else {
        var obstacleCount := CountObstacles(world, c);
        if obstacleCount < currentMaxObstacles {
          TopUpSlot(platform, d.obstacle);
        }
      }
    }

    /**
     * What the top-up leaves, from the scene `g` and obstacle pools `pools`:
     * the obstacle pools and scene as one obstacle attempt, checked against
     * the positions of all the container's children, leaves them, with the
     * container at or under the current maximum of obstacles.
     */
    ghost predicate ToppedUp(p: Platform, d: ObstacleDraws, g: Graph, pools: Obstacles.Pools)
      reads this, world, obstacleManager
      requires |obstacleManager.obstaclePrefabs| > 0 && p.obj in g.nodes && p.container.Some? && p.container.value in g.kids
      requires Obstacles.Managed(Obstacles.PoolState(g, pools), obstacleManager.obstaclePrefabs, obstacleManager.holder)
      requires forall q :: q in obstacleManager.obstaclePrefabs ==> q in pools
    {
      var c := p.container.value;
      var l := ObstacleLanding(prefabs, obstacleManager.obstaclePrefabs, settings.minObstacleSpacing,
                               distance(p.startPosition, p.endPoint.position),
                               Obstacles.PoolState(g, pools), p.obj, c, PositionsOf(g.nodes, g.kids[c], None), d);
      && Obstacles.PoolState(world.g, obstacleManager.pools) == l.s
      && c in world.g.kids && CountTagged(world.g.nodes, world.g.kids[c], ObstacleTag) <= currentMaxObstacles
    }

    /** The top-up branch of the maintenance pass: one obstacle attempt checked against all the container's children. */
    method TopUpSlot(p: Platform, d: ObstacleDraws)
      requires Valid() && |obstacleManager.obstaclePrefabs| > 0 && p.obj in world.g.nodes && p.container.Some? && p.container.value in world.g.nodes
      requires ChoreOf(world.g, Some(p), currentMaxObstacles) == TopUp
      modifies world, obstacleManager
      ensures Valid() && old(world.g.nodes.Keys) <= world.g.nodes.Keys
      ensures ToppedUp(p, d, old(world.g), old(obstacleManager.pools))
    {
      var occupied := GetOccupiedPositions(p);
      TopUpBounded(prefabs, obstacleManager.obstaclePrefabs, obstacleManager.holder, settings.minObstacleSpacing,
                   distance(p.startPosition, p.endPoint.position), Obstacles.PoolState(world.g, obstacleManager.pools), p.obj, p,
                   currentMaxObstacles, occupied, d);
      occupied := SpawnObstacleOnPlatform(p, occupied, d);
    }

    /**
     * `SpawnObstaclesOnActivePlatforms`: each slot from the player's up to
     * two ahead of it, as far as the list goes, maintained in order with the
     * next set of draws. The manager's own state does not change.
     */
    method SpawnObstaclesOnActivePlatforms(ds: seq<ContentDraws>)
      requires Valid() && Equipped() && |ds| >= 3 && forall k :: 0 <= k < |ds| ==> |ds[k].coins.cands| == Attempts
      modifies world, obstacleManager, coinManager
      ensures Valid() && old(world.g.nodes.Keys) <= world.g.nodes.Keys
    {
      var i := playerPlatformIndex;
      while i < playerPlatformIndex + 3 && i < |activePlatforms|
        invariant Valid() && old(world.g.nodes.Keys) <= world.g.nodes.Keys
        invariant playerPlatformIndex <= i
        decreases playerPlatformIndex + 3 - i
      {
        MaintainSlot(i, ds[i - playerPlatformIndex]);
        i := i + 1;
      }
    }

    /**
     * `GetNextPlatform`, then, for a record, `newPlatform.index =
     * activePlatforms.Count`, `SpawnPlatform` and `activePlatforms.Add`: the
     * copy handed out is laid at the cursor in a new last slot, joining up
     * with the platform before it. The invariant and the cursor's window are
     * kept.
     */
    method LayNext(forced: Option<PlatformPrefab>, rand: int, draw: nat) returns (q: Option<Platform>)
      requires Valid() && Ready() && CursorAtEnd(State())
      requires forced.Some? ==> forced.value == prefabs.left || forced.value == prefabs.right
      modifies this`platformPools, this`instances, this`activePlatforms, this`cursor, this`lastTurn, this`consecutiveTurnCount, world
      ensures Valid() && Ready() && CursorAtEnd(State())
      ensures var chosen := if forced.Some? then forced.value else WeightedPrefab(prefabs, rand);
              var st := NextLaid(prefabs, place, forwardOf, old(State()), old(world.g), chosen, draw);
              State() == st.s && world.g == st.g && q == st.out
      ensures q.Some? ==> LaidIn(q.value, instances, world.g)
      ensures q.Some? && prefabs.left.hasContainer && prefabs.right.hasContainer ==> q.value.container.Some?
      ensures var chosen := if forced.Some? then forced.value else WeightedPrefab(prefabs, rand);
              var turn := GetTurnType(prefabs, PickedPrefab(prefabs, old(State()), chosen, draw));
              && (prefabs.left.endPoint.Some? && prefabs.right.endPoint.Some? ==> q.Some?)
              && lastTurn == (if q.Some? then Some(turn) else old(lastTurn))
              && (Distinct(prefabs) ==> turn != Straight && (old(lastTurn).Some? ==> turn != old(lastTurn).value))
              && (Distinct(prefabs) && forced == Some(prefabs.right) ==> turn == (if old(lastTurn) == Some(Right) then Left else Right))
      ensures activePlatforms == old(activePlatforms) + (if q.Some? then [q] else [])
      ensures q.Some? ==> && q.value.index == old(|activePlatforms|)
                          && q.value.startPosition == old(cursor).position
                          && q.value.forwardDirection == forwardOf(old(cursor).rotation)
    {
      ghost var s0, g0 := State(), world.g;
      ghost var os0, cs0 := Obstacles.PoolState(g0, obstacleManager.pools), coinManager.State();
      assert Obstacles.Managed(os0, obstacleManager.obstaclePrefabs, obstacleManager.holder) && Coins.CoinsManaged(cs0, coinManager.holder);
      ghost var chosen := if forced.Some? then forced.value else WeightedPrefab(prefabs, rand);
      ghost var st := NextLaid(prefabs, place, forwardOf, s0, g0, chosen, draw);
      NextLaidKept(prefabs, place, forwardOf, Holders(), Ceiling(), s0, g0, chosen, draw);
      NextLaidTurn(prefabs, place, forwardOf, Holders(), Ceiling(), s0, g0, chosen, draw);
      q := NextAndLay(forced, rand, draw);
      LaidValid(s0, g0, os0, cs0, chosen, draw);
    }

    /** The steps of `LayNext`, on the fields alone. */
    method NextAndLay(forced: Option<PlatformPrefab>, rand: int, draw: nat) returns (q: Option<Platform>)
      requires Ready() && PoolsKnown(State()) && Consistent(world.g) && coinManager.world == world
      requires PoolsInScene(State(), world.g)
      requires forced.Some? ==> forced.value == prefabs.left || forced.value == prefabs.right
      modifies this`platformPools, this`instances, this`activePlatforms, this`cursor, this`lastTurn, this`consecutiveTurnCount, world
      ensures var chosen := if forced.Some? then forced.value else WeightedPrefab(prefabs, rand);
              var st := NextLaid(prefabs, place, forwardOf, old(State()), old(world.g), chosen, draw);
              State() == st.s && world.g == st.g && q == st.out
      ensures obstacleManager.pools == old(obstacleManager.pools) && coinManager.State() == old(coinManager.State()).(g := world.g)
      ensures activePlatforms == old(activePlatforms) + (if q.Some? then [q] else [])
      ensures q.Some? ==> && q.value.index == old(|activePlatforms|)
                          && q.value.startPosition == old(cursor).position
                          && q.value.forwardDirection == forwardOf(old(cursor).rotation)
    {
      ghost var chosen := if forced.Some? then forced.value else WeightedPrefab(prefabs, rand);
      NextLaidShape(prefabs, place, forwardOf, State(), world.g, chosen, draw);
      var newPlatform := GetNextPlatform(forced, rand, draw);
      if newPlatform.Some? {
        var p := LayPlatform(newPlatform.value.(index := |activePlatforms|));
        q := Some(p);
      } else {
        q := None;
      }
    }

    /** `SpawnPlatform` and `activePlatforms.Add`, on the fields alone. */
    method LayPlatform(p: Platform) returns (q: Platform)
      requires p.obj in instances && p.obj in world.g.nodes
      modifies this`cursor, this`activePlatforms, world
      ensures q == Laid(place, forwardOf, old(cursor), p, instances[p.obj].container)
      ensures State() == Appended(old(State()), q) && world.g == LaidScene(old(world.g), p.obj, old(cursor))
    {
      q := SpawnPlatform(p);
      activePlatforms := activePlatforms + [Some(q)];
    }

    /**
     * The advance of `Update`: the player's index moves on, the slot two
     * behind it is recycled, and the next platform, when one comes back, is
     * laid in a new last slot at the cursor and gets its content. `added` is
     * the record appended, if any.
     */
    method AdvancePlatform(rand: int, draw: nat, content: ContentDraws) returns (added: Option<Platform>)
      requires Valid() && Ready() && Windowed() && playerPlatformIndex < |activePlatforms|
      requires Sweepable(playerPlatformIndex - 1) && (hasStartedSpawningObstacles ==> Equipped())
      requires |content.coins.cands| == Attempts
      modifies this`platformPools, this`instances, this`activePlatforms, this`cursor, this`playerPlatformIndex,
               this`lastTurn, this`consecutiveTurnCount, world, obstacleManager, coinManager
      ensures Valid() && Ready() && Windowed()
      ensures playerPlatformIndex == old(playerPlatformIndex) + 1
      ensures activePlatforms == Advance(old(activePlatforms), playerPlatformIndex, added)
      ensures added.Some? ==> && added.value.index == old(|activePlatforms|)
                              && added.value.startPosition == old(cursor).position
                              && added.value.forwardDirection == forwardOf(old(cursor).rotation)
    {
      MoveOn();
      added := SpawnNext(rand, draw, content);
    }

    /** The first half of the advance: the player's index moves on and the slot two behind it is recycled. */
    method MoveOn()
      requires Valid() && Ready() && Windowed() && playerPlatformIndex < |activePlatforms| && Sweepable(playerPlatformIndex - 1)
      modifies this`platformPools, this`activePlatforms, this`playerPlatformIndex, world, obstacleManager, coinManager
      ensures Valid() && Ready() && Windowed() && cursor == old(cursor)
      ensures playerPlatformIndex == old(playerPlatformIndex) + 1
      ensures activePlatforms == Recycle(old(activePlatforms), playerPlatformIndex - 2)
    {
      ghost var slots0, index0 := activePlatforms, playerPlatformIndex;
      StepIndex();
      var recycleIndex := playerPlatformIndex - 2;
      RecyclePlatformAtIndex(recycleIndex);
      RecycleBehind(slots0, index0);
    }

    /** `playerPlatformIndex++` keeps the invariant and the cursor at the end of the track. */
    method StepIndex()
      requires Valid() && CursorAtEnd(State())
      modifies this`playerPlatformIndex
      ensures Valid() && CursorAtEnd(State())
      ensures State() == old(State()).(index := old(State()).index + 1)
    {
      NextIndexOk(prefabs, forwardOf, Holders(), Ceiling(), State(), world.g);
      playerPlatformIndex := playerPlatformIndex + 1;
    }

    /**
     * The second half of the advance: `GetNextPlatform`, and when it returns
     * a record, the platform laid in a new last slot at the cursor with
     * `SpawnContentOnPlatform`. `added` is the record appended, if any.
     */
    method SpawnNext(rand: int, draw: nat, content: ContentDraws) returns (added: Option<Platform>)
      requires Valid() && Ready() && Windowed() && |content.coins.cands| == Attempts
      requires hasStartedSpawningObstacles ==> Equipped()
      modifies this`platformPools, this`instances, this`activePlatforms, this`cursor,
               this`lastTurn, this`consecutiveTurnCount, world, obstacleManager, coinManager
      ensures Valid() && Ready() && Windowed() && playerPlatformIndex == old(playerPlatformIndex)
      ensures activePlatforms == old(activePlatforms) + (if added.Some? then [added] else [])
      ensures added.Some? ==> && added.value.index == old(|activePlatforms|)
                              && added.value.startPosition == old(cursor).position
                              && added.value.forwardDirection == forwardOf(old(cursor).rotation)
    {
      ghost var slots0 := activePlatforms;
      added := LayNext(None, rand, draw);
      if added.Some? {
        LookbehindAppend(slots0, playerPlatformIndex, added.value);
        SpawnContentOnPlatform(added.value, content);
      }
    }

    /** The ramp part of `Update`: the timer runs, obstacles start after the delay, and then the maximum climbs. */
    method RampUp(dt: real)
      requires Valid()
      modifies this`obstacleTimer, this`currentMaxObstacles, this`hasStartedSpawningObstacles
      ensures Valid()
      ensures State() == old(State()).(ramp := RampStep(old(State()).ramp, dt, settings.obstacleSpawnDelay, settings.difficultyRampTime, Ceiling()))
    {
      RampOk(prefabs, forwardOf, Holders(), State(), world.g, dt, settings.obstacleSpawnDelay, settings.difficultyRampTime, Ceiling());
      if !hasStartedSpawningObstacles {
        obstacleTimer := obstacleTimer + dt;
        if obstacleTimer >= settings.obstacleSpawnDelay {
          hasStartedSpawningObstacles := true;
          obstacleTimer := 0.0;
        }
      } else {
        obstacleTimer := obstacleTimer + dt;
        if obstacleTimer >= settings.difficultyRampTime {
          currentMaxObstacles := Min(currentMaxObstacles + 1, Ceiling());
          obstacleTimer := 0.0;
        }
      }
    }

    /**
     * `Update`, one frame: nothing happens once the player's index runs off
     * the list; otherwise the window advances by one slot when the player has
     * passed the start of their platform, the ramp steps, and once obstacles
     * have started the slots ahead are maintained. The window and the
     * invariant are kept; `added` is the record appended, if any.
     */
    method Update(t: Tick) returns (added: Option<Platform>)
      requires Valid() && Ready() && Windowed() && Sweepable(playerPlatformIndex - 1)
      requires hasStartedSpawningObstacles || obstacleTimer + t.deltaTime >= settings.obstacleSpawnDelay ==> Equipped()
      requires |t.content.coins.cands| == Attempts
      requires |t.chores| >= 3 && forall k :: 0 <= k < |t.chores| ==> |t.chores[k].coins.cands| == Attempts
      modifies this, world, obstacleManager, coinManager
      ensures Valid() && Ready() && Windowed()
      ensures var s0 := old(State());
              if s0.index >= |s0.slots| then
                && State() == s0 && world.g == old(world.g) && added.None?
                && obstacleManager.pools == old(obstacleManager.pools) && coinManager.State() == old(coinManager.State())
              else
                var passed := Passed(s0, t.player, settings.passThreshold);
                && playerPlatformIndex == s0.index + (if passed then 1 else 0)
                && activePlatforms == (if passed then Advance(s0.slots, s0.index + 1, added) else s0.slots)
                && State().ramp == RampStep(s0.ramp, t.deltaTime, settings.obstacleSpawnDelay, settings.difficultyRampTime, Ceiling())
                && (added.Some? ==> && passed && added.value.index == |s0.slots|
                                    && added.value.startPosition == s0.cursor.position
                                    && added.value.forwardDirection == forwardOf(s0.cursor.rotation))
    {
      added := None;
      if playerPlatformIndex >= |activePlatforms| {
        return;
      }
      added := AdvanceIfPassed(t.player, t.rand, t.draw, t.content);
      RampAndMaintain(t.deltaTime, t.chores);
    }

    /**
     * The first part of `Update` once the index is in range: the advance
     * happens exactly when the player is further than `passThreshold` along
     * the forward direction of their platform from its start.
     */
    method AdvanceIfPassed(player: Pos, rand: int, draw: nat, content: ContentDraws) returns (added: Option<Platform>)
      requires Valid() && Ready() && Windowed() && playerPlatformIndex < |activePlatforms|
      requires Sweepable(playerPlatformIndex - 1) && (hasStartedSpawningObstacles ==> Equipped())
      requires |content.coins.cands| == Attempts
      modifies this`platformPools, this`instances, this`activePlatforms, this`cursor, this`playerPlatformIndex,
               this`lastTurn, this`consecutiveTurnCount, world, obstacleManager, coinManager
      ensures Valid() && Ready() && Windowed() && State().ramp == old(State().ramp)
      ensures var s0 := old(State());
              var passed := Passed(s0, player, settings.passThreshold);
              && playerPlatformIndex == s0.index + (if passed then 1 else 0)
              && activePlatforms == (if passed then Advance(s0.slots, s0.index + 1, added) else s0.slots)
              && (added.Some? ==> && passed && added.value.index == |s0.slots|
                                  && added.value.startPosition == s0.cursor.position
                                  && added.value.forwardDirection == forwardOf(s0.cursor.rotation))
    {
      var current := activePlatforms[playerPlatformIndex].value;
      var toPlayer := Sub(player, current.startPosition);
      var forwardDistance := Dot(toPlayer, current.forwardDirection);
      if forwardDistance > settings.passThreshold {
        added := AdvancePlatform(rand, draw, content);
      } else {
        added := None;
      }
    }

    /** The rest of `Update`: the ramp steps, and once obstacles have started the slots ahead are maintained. */
    method RampAndMaintain(dt: real, chores: seq<ContentDraws>)
      requires Valid() && |chores| >= 3 && forall k :: 0 <= k < |chores| ==> |chores[k].coins.cands| == Attempts
      requires hasStartedSpawningObstacles || obstacleTimer + dt >= settings.obstacleSpawnDelay ==> Equipped()
      modifies this`obstacleTimer, this`currentMaxObstacles, this`hasStartedSpawningObstacles, world, obstacleManager, coinManager
      ensures Valid()
      ensures State() == old(State()).(ramp := RampStep(old(State()).ramp, dt, settings.obstacleSpawnDelay, settings.difficultyRampTime, Ceiling()))
    {
      RampUp(dt);
      if hasStartedSpawningObstacles {
        ghost var s1 := State();
        SpawnObstaclesOnActivePlatforms(chores);
        assert State() == s1;
      }
    }

    /**
     * `Start`: `platformsAhead` platforms laid one after another from the
     * cursor, the first two asking for the right turn and the rest for a
     * weighted random choice. The source dereferences a null record; here
     * the loop stops at the first one instead, which cannot come when both
     * turn prototypes have an "EndPoint". `turns[k]` is the turn the streak
     * records for slot `k`, that of the prototype settled on: with distinct
     * turn prototypes no two neighbours share it, and from a fresh streak the
     * track opens with the right turn and then the left one.
     */
    method Start(rands: seq<int>, draws: seq<nat>) returns (ghost turns: seq<TurnType>)
      requires Valid() && Ready() && activePlatforms == [] && playerPlatformIndex == 0
      requires |rands| >= settings.platformsAhead && |draws| >= settings.platformsAhead
      modifies this`platformPools, this`instances, this`activePlatforms, this`cursor, this`lastTurn, this`consecutiveTurnCount, world
      ensures Valid() && Ready() && Windowed() && playerPlatformIndex == 0
      ensures |activePlatforms| <= settings.platformsAhead
      ensures prefabs.left.endPoint.Some? && prefabs.right.endPoint.Some? ==> |activePlatforms| == settings.platformsAhead
      ensures forall i :: 0 <= i < |activePlatforms| ==> activePlatforms[i].Some? && activePlatforms[i].value.index == i
      ensures |turns| == |activePlatforms| && Opening(prefabs, old(lastTurn), turns, lastTurn)
    {
      turns := [];
      var i := 0;
      while i < settings.platformsAhead
        invariant 0 <= i <= settings.platformsAhead && |activePlatforms| == i
        invariant Valid() && Ready() && Windowed() && playerPlatformIndex == 0
        invariant |turns| == i && Opening(prefabs, old(lastTurn), turns, lastTurn)
      {
        var prefab := if i < 2 then prefabs.right else WeightedPrefab(prefabs, rands[i]);
        ghost var slots0, last := activePlatforms, lastTurn;
        var platform := LayNext(Some(prefab), rands[i], draws[i]);
        if platform.None? {
          assert activePlatforms == slots0;
          break;
        }
        OpeningStep(prefabs, old(lastTurn), turns, last, lastTurn.value, i < 2);
        turns := turns + [lastTurn.value];
        LookbehindAppend(slots0, 0, platform.value);
        i := i + 1;
      }
      FullWindow(activePlatforms);
    }
  }
}
