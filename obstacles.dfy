/**
 * `ObstacleManager`: one FIFO pool of inactive instances per obstacle
 * prototype, kept under the manager's own object. Acquiring dequeues the
 * head or constructs a fresh copy; releasing resolves the prototype from the
 * instance's name and enqueues it at that pool's tail.
 */
module Obstacles {
  import opened Options
  import opened Seqs
  import opened Geometry
  import opened Scene
  import Names

  /** An obstacle prototype: an identity, a name and the tag its copies carry. */
  datatype Prefab = Prefab(id: nat, name: string, tag: Tag)

  type Pools = map<Prefab, seq<Id>>

  /** The index of the first prototype called `name`, if any. */
  function FindByName(prefabs: seq<Prefab>, name: string): (r: Option<nat>)
    ensures r.Some? ==> r.value < |prefabs| && prefabs[r.value].name == name
    ensures r.Some? ==> forall j :: 0 <= j < r.value ==> prefabs[j].name != name
    ensures r.None? <==> forall j :: 0 <= j < |prefabs| ==> prefabs[j].name != name
  {
    if prefabs == [] then None
    else if prefabs[0].name == name then Some(0)
    else match FindByName(prefabs[1..], name)
         case None => None
         case Some(k) => Some(k + 1)
  }

  /** `GetPrefabFromInstance`: the first prototype named like the instance without "(Clone)", else the first prototype. */
  function GetPrefabFromInstance(prefabs: seq<Prefab>, instanceName: string): Prefab
    requires |prefabs| > 0
  {
    match FindByName(prefabs, Names.BaseName(instanceName))
    case Some(i) => prefabs[i]
    case None => prefabs[0]
  }

  /** Resolution always yields a known prototype: the first one with the cleaned name, or the fallback. */
  lemma ResolvesToKnown(prefabs: seq<Prefab>, instanceName: string)
    requires |prefabs| > 0
    ensures GetPrefabFromInstance(prefabs, instanceName) in prefabs
    ensures var b := Names.BaseName(instanceName);
            (exists j :: 0 <= j < |prefabs| && prefabs[j].name == b)
            ==> GetPrefabFromInstance(prefabs, instanceName).name == b
    ensures (forall j :: 0 <= j < |prefabs| ==> prefabs[j].name != Names.BaseName(instanceName))
            ==> GetPrefabFromInstance(prefabs, instanceName) == prefabs[0]
  {
  }

  /** A copy of a clean-named prototype resolves to that prototype when no earlier prototype has the same name. */
  lemma ResolvesClone(prefabs: seq<Prefab>, k: nat)
    requires k < |prefabs| && Names.Clean(prefabs[k].name)
    requires forall j :: 0 <= j < k ==> prefabs[j].name != prefabs[k].name
    ensures GetPrefabFromInstance(prefabs, Names.CloneName(prefabs[k].name)) == prefabs[k]
  {
    Names.BaseNameOfClone(prefabs[k].name);
    var r := FindByName(prefabs, prefabs[k].name);
    assert r.Some?;
    assert r.value == k;
  }

  /** The pools after releasing `x`, an instance named `name`: enqueued at its prototype's tail, or nowhere. */
  function ReturnOne(pools: Pools, prefabs: seq<Prefab>, name: string, x: Id): Pools
    requires |prefabs| > 0
  {
    var p := GetPrefabFromInstance(prefabs, name);
    if p in pools then pools[p := pools[p] + [x]] else pools
  }

  /**
   * Acquiring the head of a pool and releasing it again rotates that pool:
   * the head moves to the tail and every other pool is untouched.
   */
  lemma AcquireReleaseRotates(pools: Pools, prefabs: seq<Prefab>, k: nat)
    requires k < |prefabs| && Names.Clean(prefabs[k].name)
    requires forall j :: 0 <= j < k ==> prefabs[j].name != prefabs[k].name
    requires prefabs[k] in pools && pools[prefabs[k]] != []
    ensures var p, q := prefabs[k], pools[prefabs[k]];
            ReturnOne(pools[p := q[1..]], prefabs, Names.CloneName(p.name), q[0]) == pools[p := q[1..] + [q[0]]]
  {
    ResolvesClone(prefabs, k);
  }

  /** `ReturnObstacle` on the scene: deactivate, move under `holder`, and destroy unless `kept`. */
  function Released(g: Graph, holder: Id, kept: bool, x: Id): Graph
    requires x in g.nodes && holder in g.nodes
  {
    var g1 := WithParent(WithActive(g, x, false), x, Some(holder));
    if kept then g1 else Destroyed(g1, x)
  }

  lemma ReleasedConsistent(g: Graph, holder: Id, kept: bool, x: Id)
    requires Consistent(g) && x in g.nodes && holder in g.nodes
    ensures Consistent(Released(g, holder, kept, x))
  {
    ActiveConsistent(g, x, false);
    var g0 := WithActive(g, x, false);
    ParentConsistent(g0, x, Some(holder));
    DestroyedConsistent(WithParent(g0, x, Some(holder)), x);
  }

  /**
   * A released object ends inactive: back under `holder` when kept, detached
   * and dead otherwise. No other object changes.
   */
  lemma ReleasedNodes(g: Graph, holder: Id, kept: bool, x: Id)
    requires x in g.nodes && holder in g.nodes
    ensures var r := Released(g, holder, kept, x);
            && r.nodes.Keys == g.nodes.Keys && r.kids.Keys == g.kids.Keys && r.next == g.next
            && r.nodes[x] == (if kept then g.nodes[x].(active := false, parent := Some(holder))
                              else g.nodes[x].(active := false, parent := None, alive := false))
            && forall y :: y in g.nodes && y != x ==> r.nodes[y] == g.nodes[y]
  {
  }

  /** Releasing touches only the child list `x` leaves and the holder's. */
  lemma ReleasedKids(g: Graph, holder: Id, kept: bool, x: Id, c: Id)
    requires x in g.nodes && holder in g.nodes && c in g.kids && c != holder
    ensures var r := Released(g, holder, kept, x);
            r.kids[c] == if g.nodes[x].parent == Some(c) then RemoveFirst(g.kids[c], x) else g.kids[c]
  {
    var from := g.nodes[x].parent;
    var g1 := WithParent(WithActive(g, x, false), x, Some(holder));
    if from != Some(holder) {
      ReparentAt(g.kids, x, from, Some(holder), c);
    }
    if !kept {
      assert g1.nodes[x].parent == Some(holder);
      ReparentAt(g1.kids, x, Some(holder), None, c);
    }
  }

  /** The scene and the pools while a manager is in use. */
  datatype PoolState = PoolState(g: Graph, pools: Pools)

  /**
   * One `ReturnObstacle` of `x` on a scene and its pools (an object missing
   * from the scene, which a scene object's children never are, changes nothing).
   */
  function ReleaseStep(s: PoolState, prefabs: seq<Prefab>, holder: Id, x: Id): PoolState
    requires |prefabs| > 0
  {
    if x !in s.g.nodes || holder !in s.g.nodes then s
    else
      var name := s.g.nodes[x].name;
      var kept := GetPrefabFromInstance(prefabs, name) in s.pools;
      PoolState(Released(s.g, holder, kept, x), ReturnOne(s.pools, prefabs, name, x))
  }

  /**
   * The manager's invariant on a scene and its pools: the scene is
   * consistent, the manager's object exists, pools belong to known
   * prototypes and hold scene objects (objects are never removed from the
   * scene, only destroyed).
   */
  ghost predicate Managed(s: PoolState, prefabs: seq<Prefab>, holder: Id) {
    && Consistent(s.g)
    && holder in s.g.nodes
    && (forall p :: p in s.pools ==> p in prefabs)
    && (forall p, i :: p in s.pools && 0 <= i < |s.pools[p]| ==> s.pools[p][i] in s.g.nodes)
  }

  /** Another manager's update of the shared scene that keeps it consistent and removes no object keeps the invariant. */
  lemma ManagedMoved(s: PoolState, prefabs: seq<Prefab>, holder: Id, g: Graph)
    requires Managed(s, prefabs, holder) && Consistent(g) && s.g.nodes.Keys <= g.nodes.Keys
    ensures Managed(PoolState(g, s.pools), prefabs, holder)
  {
  }

  /** The object `GetObstacle(prefab)` hands out: the head of the prototype's pool, or the id a new copy gets. */
  function AcquiredId(s: PoolState, prefab: Prefab): Id
    requires prefab in s.pools
  {
    if s.pools[prefab] != [] then s.pools[prefab][0] else s.g.next
  }

  /** `GetObstacle(prefab)` on a scene and its pools: dequeue the head or instantiate a copy, then activate it. */
  function Acquired(s: PoolState, prefab: Prefab): PoolState
    requires prefab in s.pools && (s.pools[prefab] != [] ==> s.pools[prefab][0] in s.g.nodes)
  {
    var q := s.pools[prefab];
    if q != [] then PoolState(WithActive(s.g, q[0], true), s.pools[prefab := q[1..]])
    else PoolState(WithActive(Spawn(s.g, Names.CloneName(prefab.name), prefab.tag), s.g.next, true), s.pools)
  }

  /**
   * Acquiring keeps the invariant and removes no object; the object handed
   * out is active, and it is a new one exactly when the pool was empty.
   * A non-empty pool loses its head and the others are untouched.
   */
  lemma AcquiredManaged(s: PoolState, prefabs: seq<Prefab>, holder: Id, prefab: Prefab)
    requires Managed(s, prefabs, holder) && prefab in s.pools
    ensures var r, x := Acquired(s, prefab), AcquiredId(s, prefab);
            && Managed(r, prefabs, holder)
            && s.g.nodes.Keys <= r.g.nodes.Keys
            && x in r.g.nodes && r.g.nodes[x].active
            && (x !in s.g.nodes <==> s.pools[prefab] == [])
            && (s.pools[prefab] != [] ==> r.pools == s.pools[prefab := s.pools[prefab][1..]])
            && (s.pools[prefab] == [] ==> r.pools == s.pools)
  {
    if s.pools[prefab] == [] {
      SpawnConsistent(s.g, Names.CloneName(prefab.name), prefab.tag);
      ActiveConsistent(Spawn(s.g, Names.CloneName(prefab.name), prefab.tag), s.g.next, true);
    } else {
      ActiveConsistent(s.g, s.pools[prefab][0], true);
    }
  }

  /**
   * `GetObstacle` then `ReturnObstacle` of the same object, when its name
   * resolves back to the prototype (a fresh copy's name does when the
   * prototype's name is clean and not shadowed by an earlier one): a
   * non-empty pool is rotated, its length restored; an empty one ends
   * holding the new copy.
   */
  lemma AcquireRelease(s: PoolState, prefabs: seq<Prefab>, holder: Id, k: nat)
    requires Managed(s, prefabs, holder) && k < |prefabs| && prefabs[k] in s.pools
    requires var q := s.pools[prefabs[k]];
             q != [] ==> GetPrefabFromInstance(prefabs, s.g.nodes[q[0]].name) == prefabs[k]
    requires s.pools[prefabs[k]] == [] ==>
               Names.Clean(prefabs[k].name) && forall j :: 0 <= j < k ==> prefabs[j].name != prefabs[k].name
    ensures var p, q := prefabs[k], s.pools[prefabs[k]];
            var r := ReleaseStep(Acquired(s, p), prefabs, holder, AcquiredId(s, p));
            && (q != [] ==> r.pools == s.pools[p := q[1..] + [q[0]]])
            && (q == [] ==> r.pools == s.pools[p := [s.g.next]])
  {
    var p := prefabs[k];
    AcquiredManaged(s, prefabs, holder, p);
    var a, x := Acquired(s, p), AcquiredId(s, p);
    if s.pools[p] == [] {
      ResolvesClone(prefabs, k);
      assert a.g.nodes[x].name == Names.CloneName(p.name);
      assert s.pools[p] + [x] == [x];
    } else {
      assert a.g.nodes[x].name == s.g.nodes[x].name;
    }
  }

  /** A release keeps the manager's invariant. */
  lemma ReleaseStepManaged(s: PoolState, prefabs: seq<Prefab>, holder: Id, x: Id)
    requires Managed(s, prefabs, holder) && |prefabs| > 0
    ensures Managed(ReleaseStep(s, prefabs, holder, x), prefabs, holder)
  {
    if x in s.g.nodes {
      var kept := GetPrefabFromInstance(prefabs, s.g.nodes[x].name) in s.pools;
      ReleasedConsistent(s.g, holder, kept, x);
      ReleasedNodes(s.g, holder, kept, x);
    }
  }

  /** `ReturnAllObstacles` on a snapshot `xs` of the children: release them from the last to the first. */
  function Sweep(s: PoolState, prefabs: seq<Prefab>, holder: Id, xs: seq<Id>): PoolState
    requires |prefabs| > 0 || xs == []
    decreases |xs|
  {
    if xs == [] then s
    else Sweep(ReleaseStep(s, prefabs, holder, xs[|xs| - 1]), prefabs, holder, xs[..|xs| - 1])
  }

  /** The objects of `xs`, last to first, that resolve to prototype `p` by their names in `nodes`. */
  function Returned(nodes: map<Id, Node>, prefabs: seq<Prefab>, p: Prefab, xs: seq<Id>): (r: seq<Id>)
    requires (|prefabs| > 0 || xs == []) && forall x :: x in xs ==> x in nodes
    ensures forall y :: y in r ==> y in xs
  {
    if xs == [] then []
    else
      var x := xs[|xs| - 1];
      (if GetPrefabFromInstance(prefabs, nodes[x].name) == p then [x] else []) + Returned(nodes, prefabs, p, xs[..|xs| - 1])
  }

  /** What a release does to one object: it ends inactive, back under `holder` when kept, else detached and dead. */
  function AfterRelease(n: Node, holder: Id, kept: bool): Node {
    if kept then n.(active := false, parent := Some(holder))
    else n.(active := false, parent := None, alive := false)
  }

  /** Releasing never renames an object. */
  lemma ReturnedNames(n1: map<Id, Node>, n2: map<Id, Node>, prefabs: seq<Prefab>, p: Prefab, xs: seq<Id>)
    requires |prefabs| > 0
    requires forall x :: x in xs ==> x in n1 && x in n2 && n1[x].name == n2[x].name
    ensures Returned(n1, prefabs, p, xs) == Returned(n2, prefabs, p, xs)
  {
    if xs != [] {
      ReturnedNames(n1, n2, prefabs, p, xs[..|xs| - 1]);
    }
  }

  /** A sweep never adds or removes a pool. */
  lemma {:induction false} SweepPoolKeys(s: PoolState, prefabs: seq<Prefab>, holder: Id, xs: seq<Id>)
    requires (|prefabs| > 0 || xs == []) && holder in s.g.nodes && forall x :: x in xs ==> x in s.g.nodes
    ensures Sweep(s, prefabs, holder, xs).pools.Keys == s.pools.Keys
    decreases |xs|
  {
    if xs != [] {
      var x := xs[|xs| - 1];
      ReleasedNodes(s.g, holder, GetPrefabFromInstance(prefabs, s.g.nodes[x].name) in s.pools, x);
      SweepPoolKeys(ReleaseStep(s, prefabs, holder, x), prefabs, holder, xs[..|xs| - 1]);
    }
  }

  /**
   * A sweep appends to each existing pool exactly the swept objects that
   * resolve to its prototype, in the order they were released (last child
   * first).
   */
  lemma {:induction false} SweepPools(s: PoolState, prefabs: seq<Prefab>, holder: Id, xs: seq<Id>, p: Prefab)
    requires (|prefabs| > 0 || xs == []) && holder in s.g.nodes && forall x :: x in xs ==> x in s.g.nodes
    requires p in s.pools
    ensures p in Sweep(s, prefabs, holder, xs).pools
    ensures Sweep(s, prefabs, holder, xs).pools[p] == s.pools[p] + Returned(s.g.nodes, prefabs, p, xs)
    decreases |xs|
  {
    if xs != [] {
      var x := xs[|xs| - 1];
      var xs' := xs[..|xs| - 1];
      var s' := ReleaseStep(s, prefabs, holder, x);
      ReleasedNodes(s.g, holder, GetPrefabFromInstance(prefabs, s.g.nodes[x].name) in s.pools, x);
      SweepPools(s', prefabs, holder, xs', p);
      ReturnedNames(s'.g.nodes, s.g.nodes, prefabs, p, xs');
      var own := if GetPrefabFromInstance(prefabs, s.g.nodes[x].name) == p then [x] else [];
      assert s'.pools[p] == s.pools[p] + own;
      assert Returned(s.g.nodes, prefabs, p, xs) == own + Returned(s.g.nodes, prefabs, p, xs');
      AppendAssoc(s.pools[p], own, Returned(s.g.nodes, prefabs, p, xs'));
    }
  }

  /** A sweep keeps the scene consistent and removes no object. */
  lemma {:induction false} SweepConsistent(s: PoolState, prefabs: seq<Prefab>, holder: Id, xs: seq<Id>)
    requires (|prefabs| > 0 || xs == []) && Consistent(s.g) && holder in s.g.nodes && forall x :: x in xs ==> x in s.g.nodes
    ensures var r := Sweep(s, prefabs, holder, xs);
            Consistent(r.g) && r.g.nodes.Keys == s.g.nodes.Keys && r.g.next == s.g.next
    decreases |xs|
  {
    if xs != [] {
      var x := xs[|xs| - 1];
      var kept := GetPrefabFromInstance(prefabs, s.g.nodes[x].name) in s.pools;
      ReleasedNodes(s.g, holder, kept, x);
      ReleasedConsistent(s.g, holder, kept, x);
      SweepConsistent(ReleaseStep(s, prefabs, holder, x), prefabs, holder, xs[..|xs| - 1]);
    }
  }

  /**
   * Each swept object is released as `ReturnObstacle` releases it, with the
   * pools as they were before the sweep; every other object is unchanged.
   */
  lemma {:induction false} SweepNodes(s: PoolState, prefabs: seq<Prefab>, holder: Id, xs: seq<Id>)
    requires (|prefabs| > 0 || xs == []) && holder in s.g.nodes && NoDup(xs) && forall x :: x in xs ==> x in s.g.nodes
    ensures var r := Sweep(s, prefabs, holder, xs);
            && (forall x :: x in xs ==>
                  x in r.g.nodes && r.g.nodes[x] == AfterRelease(s.g.nodes[x], holder, GetPrefabFromInstance(prefabs, s.g.nodes[x].name) in s.pools))
            && (forall y :: y in s.g.nodes && y !in xs ==> y in r.g.nodes && r.g.nodes[y] == s.g.nodes[y])
    decreases |xs|
  {
    if xs != [] {
      var n := |xs|;
      var x := xs[n - 1];
      var xs' := xs[..n - 1];
      var kept := GetPrefabFromInstance(prefabs, s.g.nodes[x].name) in s.pools;
      var s' := ReleaseStep(s, prefabs, holder, x);
      ReleasedNodes(s.g, holder, kept, x);
      CutLast(xs, n - 1);
      NoDupPrefix(xs, n - 1);
      SweepNodes(s', prefabs, holder, xs');
      SweepPoolKeys(s', prefabs, holder, xs');
      var r := Sweep(s', prefabs, holder, xs');
      assert r == Sweep(s, prefabs, holder, xs);
      forall y | y in xs
        ensures y in r.g.nodes && r.g.nodes[y] == AfterRelease(s.g.nodes[y], holder, GetPrefabFromInstance(prefabs, s.g.nodes[y].name) in s.pools)
      {
        if y == x {
          assert y !in xs';
        } else {
          assert y in xs';
        }
      }
    }
  }

  /**
   * Sweeping all children of a container other than the holder leaves it
   * empty; no other child list except the holder's changes.
   */
  lemma {:induction false} SweepClears(s: PoolState, prefabs: seq<Prefab>, holder: Id, c: Id, xs: seq<Id>)
    requires (|prefabs| > 0 || xs == []) && Consistent(s.g) && holder in s.g.nodes
    requires c in s.g.kids && c != holder && s.g.kids[c] == xs
    ensures forall x :: x in xs ==> x in s.g.nodes
    ensures var r := Sweep(s, prefabs, holder, xs);
            && c in r.g.kids && r.g.kids[c] == []
            && (forall d :: d in s.g.kids && d != c && d != holder ==> d in r.g.kids && r.g.kids[d] == s.g.kids[d])
    decreases |xs|
  {
    if xs != [] {
      var n := |xs|;
      var x := xs[n - 1];
      var xs' := xs[..n - 1];
      var kept := GetPrefabFromInstance(prefabs, s.g.nodes[x].name) in s.pools;
      var s' := ReleaseStep(s, prefabs, holder, x);
      assert s.g.nodes[x].parent == Some(c);
      ReleasedNodes(s.g, holder, kept, x);
      ReleasedConsistent(s.g, holder, kept, x);
      ReleasedKids(s.g, holder, kept, x, c);
      CutLast(xs, n - 1);
      assert xs[..n] == xs;
      assert s'.g.kids[c] == xs';
      SweepClears(s', prefabs, holder, c, xs');
      forall d | d in s.g.kids && d != c && d != holder ensures s'.g.kids[d] == s.g.kids[d] {
        ReleasedKids(s.g, holder, kept, x, d);
      }
    }
  }

  /** With every prototype pooled, a release always keeps the object and enqueues it at its prototype's tail. */
  lemma ReleaseStepKept(s: PoolState, prefabs: seq<Prefab>, holder: Id, x: Id)
    requires |prefabs| > 0 && x in s.g.nodes && holder in s.g.nodes
    requires forall p :: p in prefabs ==> p in s.pools
    ensures var p, r := GetPrefabFromInstance(prefabs, s.g.nodes[x].name), ReleaseStep(s, prefabs, holder, x);
            && p in prefabs && p in s.pools
            && r.pools == s.pools[p := s.pools[p] + [x]]
            && r.g.nodes == s.g.nodes[x := s.g.nodes[x].(active := false, parent := Some(holder))]
  {
    ResolvesToKnown(prefabs, s.g.nodes[x].name);
    var r := ReleaseStep(s, prefabs, holder, x);
    ReleasedNodes(s.g, holder, true, x);
    assert r.g.nodes == s.g.nodes[x := s.g.nodes[x].(active := false, parent := Some(holder))];
  }

  /** `Awake` for the first `k` prototypes: `size` pool copies of each, in order, under `holder`. */
  function Built(g: Graph, holder: Id, prefabs: seq<Prefab>, size: nat, k: nat): (r: Graph)
    requires k <= |prefabs| && holder in g.kids
    ensures holder in r.kids && g.next <= r.next
  {
    if k == 0 then g
    else
      var p := prefabs[k - 1];
      Copies(Built(g, holder, prefabs, size, k - 1), holder, Names.CloneName(p.name), p.tag, size)
  }

  /** The pools `Awake` records for the first `k` prototypes: each the ids of its copies, in creation order. */
  function BuiltPools(g: Graph, holder: Id, prefabs: seq<Prefab>, size: nat, k: nat): Pools
    requires k <= |prefabs| && holder in g.kids
  {
    if k == 0 then map[]
    else BuiltPools(g, holder, prefabs, size, k - 1)[prefabs[k - 1] := IdRange(Built(g, holder, prefabs, size, k - 1).next, size)]
  }

  /** Building pools keeps the scene consistent and changes no object that was there before. */
  lemma {:induction false} BuiltKeeps(g: Graph, holder: Id, prefabs: seq<Prefab>, size: nat, k: nat)
    requires k <= |prefabs| && Consistent(g) && holder in g.nodes
    ensures var r := Built(g, holder, prefabs, size, k);
            && Consistent(r)
            && forall y :: y in g.nodes ==> y in r.nodes && r.nodes[y] == g.nodes[y]
  {
    if k > 0 {
      BuiltKeeps(g, holder, prefabs, size, k - 1);
      var b := Built(g, holder, prefabs, size, k - 1);
      var p := prefabs[k - 1];
      CopiesConsistent(b, holder, Names.CloneName(p.name), p.tag, size);
      CopiesOld(b, holder, Names.CloneName(p.name), p.tag, size);
    }
  }

  /** There is one pool per listed prototype, each of `size` objects. */
  lemma {:induction false} BuiltPoolsShape(g: Graph, holder: Id, prefabs: seq<Prefab>, size: nat, k: nat)
    requires k <= |prefabs| && holder in g.kids
    ensures var pools := BuiltPools(g, holder, prefabs, size, k);
            && (forall p :: p in pools <==> p in prefabs[..k])
            && (forall p :: p in pools ==> |pools[p]| == size)
  {
    if k > 0 {
      BuiltPoolsShape(g, holder, prefabs, size, k - 1);
      assert prefabs[..k] == prefabs[..k - 1] + [prefabs[k - 1]];
    }
  }

  /** Pool copies take ids from `next` on: every id stays below `next`. */
  lemma {:induction false} BuiltBelow(g: Graph, holder: Id, prefabs: seq<Prefab>, size: nat, k: nat)
    requires k <= |prefabs| && holder in g.kids && forall y :: y in g.nodes ==> y < g.next
    ensures forall y :: y in Built(g, holder, prefabs, size, k).nodes ==> y < Built(g, holder, prefabs, size, k).next
  {
    if k > 0 {
      BuiltBelow(g, holder, prefabs, size, k - 1);
      var b := Built(g, holder, prefabs, size, k - 1);
      var p := prefabs[k - 1];
      CopiesKeys(b, holder, Names.CloneName(p.name), p.tag, size);
    }
  }

  /** Every object in the pool of `p` is a new, inactive copy of `p`, parented to `holder`. */
  lemma {:induction false} BuiltPoolsFresh(g: Graph, holder: Id, prefabs: seq<Prefab>, size: nat, k: nat, p: Prefab)
    requires k <= |prefabs| && holder in g.kids && forall y :: y in g.nodes ==> y < g.next
    requires p in BuiltPools(g, holder, prefabs, size, k)
    ensures forall x :: x in BuiltPools(g, holder, prefabs, size, k)[p] ==>
              var r := Built(g, holder, prefabs, size, k);
              && g.next <= x < r.next && x in r.nodes
              && r.nodes[x] == Node(Names.CloneName(p.name), p.tag, false, Some(holder), Origin, true)
  {
    var b := Built(g, holder, prefabs, size, k - 1);
    var q := prefabs[k - 1];
    var name := Names.CloneName(q.name);
    var r := Built(g, holder, prefabs, size, k);
    assert r == Copies(b, holder, name, q.tag, size);
    if p == q {
      CopiesNew(b, holder, name, q.tag, size);
      IdRangeMembers(b.next, size);
    } else {
      BuiltPoolsFresh(g, holder, prefabs, size, k - 1, p);
      BuiltBelow(g, holder, prefabs, size, k - 1);
      CopiesOld(b, holder, name, q.tag, size);
    }
  }

  /** The sweep of `ks[..i]` starts by releasing `ks[i - 1]`. */
  lemma SweepUnfold(s: PoolState, prefabs: seq<Prefab>, holder: Id, ks: seq<Id>, i: nat)
    requires |prefabs| > 0 && 0 < i <= |ks|
    ensures Sweep(s, prefabs, holder, ks[..i]) == Sweep(ReleaseStep(s, prefabs, holder, ks[i - 1]), prefabs, holder, ks[..i - 1])
  {
    assert ks[..i][i - 1] == ks[i - 1];
    assert ks[..i][..i - 1] == ks[..i - 1];
  }

  /** The last child in a consistent scene exists and names `c` as its parent. */
  lemma LastChild(g: Graph, c: Id, ks: seq<Id>, i: nat)
    requires Consistent(g) && c in g.kids && 0 < i <= |ks| && g.kids[c] == ks[..i]
    ensures ks[i - 1] in g.nodes && g.nodes[ks[i - 1]].parent == Some(c)
  {
    assert g.kids[c][i - 1] == ks[i - 1];
  }

  /** One iteration of `ReturnAllObstacles`: releasing the last child `ks[i - 1]` of `c` leaves `ks[..i - 1]` under it. */
  lemma ReleaseLastChild(s: PoolState, prefabs: seq<Prefab>, holder: Id, c: Id, ks: seq<Id>, i: nat)
    requires |prefabs| > 0 && Consistent(s.g) && holder in s.g.nodes
    requires c in s.g.kids && c != holder && 0 < i <= |ks| && s.g.kids[c] == ks[..i] && NoDup(ks)
    ensures ks[i - 1] in s.g.nodes
    ensures var s' := ReleaseStep(s, prefabs, holder, ks[i - 1]);
            c in s'.g.kids && s'.g.kids[c] == ks[..i - 1]
  {
    var x := ks[i - 1];
    LastChild(s.g, c, ks, i);
    var kept := GetPrefabFromInstance(prefabs, s.g.nodes[x].name) in s.pools;
    ReleasedKids(s.g, holder, kept, x, c);
    ReleasedNodes(s.g, holder, kept, x);
    CutLast(ks, i - 1);
  }

  /**
   * Partway through the return-all loop over a snapshot `ks` of the children
   * of `c`: the first `i` children are still in place, and sweeping them is
   * all that is left of the sweep started from `s0`.
   */
  ghost predicate SweepingAt(s: PoolState, s0: PoolState, prefabs: seq<Prefab>, holder: Id, c: Id, ks: seq<Id>, i: nat) {
    && Managed(s, prefabs, holder)
    && c in s.g.kids && c != holder && i <= |ks| && NoDup(ks)
    && s.g.kids[c] == ks[..i] && (|prefabs| > 0 || ks == [])
    && Sweep(s, prefabs, holder, ks[..i]) == Sweep(s0, prefabs, holder, ks)
  }

  /** Before the return-all loop runs, the whole child list is still to be swept. */
  lemma SweepBegin(s0: PoolState, prefabs: seq<Prefab>, holder: Id, c: Id)
    requires Managed(s0, prefabs, holder) && c in s0.g.nodes && c != holder
    requires |prefabs| > 0 || s0.g.kids[c] == []
    ensures c in s0.g.kids
    ensures var ks := s0.g.kids[c]; SweepingAt(s0, s0, prefabs, holder, c, ks, |ks|)
  {
    var ks := s0.g.kids[c];
    assert ks[..|ks|] == ks;
  }

  /** When the return-all loop stops, the sweep of the original child list is complete. */
  lemma SweepEnd(s: PoolState, s0: PoolState, prefabs: seq<Prefab>, holder: Id, c: Id, ks: seq<Id>)
    requires SweepingAt(s, s0, prefabs, holder, c, ks, 0)
    ensures Managed(s, prefabs, holder) && s == Sweep(s0, prefabs, holder, ks)
  {
    assert ks[..0] == [];
  }

  /** One step of the return-all loop: releasing the last remaining child shortens the list and leaves the rest of the sweep. */
  lemma SweepLast(s: PoolState, s0: PoolState, prefabs: seq<Prefab>, holder: Id, c: Id, ks: seq<Id>, i: nat)
    requires SweepingAt(s, s0, prefabs, holder, c, ks, i) && 0 < i
    ensures ks[i - 1] in s.g.nodes && s.g.kids[c][i - 1] == ks[i - 1]
    ensures SweepingAt(ReleaseStep(s, prefabs, holder, ks[i - 1]), s0, prefabs, holder, c, ks, i - 1)
  {
    ReleaseLastChild(s, prefabs, holder, c, ks, i);
    SweepUnfold(s, prefabs, holder, ks, i);
    ReleaseStepManaged(s, prefabs, holder, ks[i - 1]);
  }

  /** After `Awake` every prototype has a pool, and the manager's invariant holds. */
  lemma BuiltManaged(g: Graph, holder: Id, prefabs: seq<Prefab>, size: nat)
    requires Consistent(g) && holder in g.nodes
    ensures var k := |prefabs|;
            Managed(PoolState(Built(g, holder, prefabs, size, k), BuiltPools(g, holder, prefabs, size, k)), prefabs, holder)
    ensures forall p :: p in prefabs ==> p in BuiltPools(g, holder, prefabs, size, |prefabs|)
  {
    var k := |prefabs|;
    var pools := BuiltPools(g, holder, prefabs, size, k);
    BuiltKeeps(g, holder, prefabs, size, k);
    BuiltPoolsShape(g, holder, prefabs, size, k);
    forall p | p in pools ensures forall x :: x in pools[p] ==> x in Built(g, holder, prefabs, size, k).nodes {
      BuiltPoolsFresh(g, holder, prefabs, size, k, p);
    }
    assert prefabs[..k] == prefabs;
  }

  /** The manager's object stays in the scene while pools are built. */
  lemma BuiltHolder(g: Graph, holder: Id, prefabs: seq<Prefab>, size: nat, k: nat)
    requires k <= |prefabs| && Consistent(g) && holder in g.nodes
    ensures var r := Built(g, holder, prefabs, size, k);
            holder in r.nodes && holder in r.kids && holder < r.next
  {
    BuiltKeeps(g, holder, prefabs, size, k);
  }

  /** The loop of `Awake`: for each prototype in order, a pool of `size` fresh copies under `holder`. */
  method FillPools(world: World, holder: Id, prefabs: seq<Prefab>, size: nat) returns (pools: Pools)
    requires Consistent(world.g) && holder in world.g.nodes
    modifies world
    ensures world.g == Built(old(world.g), holder, prefabs, size, |prefabs|)
    ensures pools == BuiltPools(old(world.g), holder, prefabs, size, |prefabs|)
  {
    ghost var g0 := world.g;
    pools := map[];
    var k := 0;
    while k < |prefabs|
      invariant 0 <= k <= |prefabs|
      invariant world.g == Built(g0, holder, prefabs, size, k)
      invariant pools == BuiltPools(g0, holder, prefabs, size, k)
    {
      var prefab := prefabs[k];
      BuiltHolder(g0, holder, prefabs, size, k);
      var pool := BuildPool(world, holder, prefab.name, prefab.tag, size);
      pools := pools[prefab := pool];
      k := k + 1;
    }
  }

  /**
   * The pool invariant: every pooled object is an inactive child of
   * `holder` and sits at one place of one pool only.
   */
  ghost predicate PoolsSound(s: PoolState, holder: Id) {
    && QueuedOnce(s.pools)
    && forall p, i :: p in s.pools && 0 <= i < |s.pools[p]| ==>
         s.pools[p][i] in s.g.nodes && !s.g.nodes[s.pools[p][i]].active && s.g.nodes[s.pools[p][i]].parent == Some(holder)
  }

  /** An update of the scene that leaves the holder's children alone keeps the pool invariant. */
  lemma PoolsSoundMoved(s: PoolState, holder: Id, g: Graph, touched: set<Option<Id>>)
    requires PoolsSound(s, holder) && Confined(s.g, g, touched) && Some(holder) !in touched
    ensures PoolsSound(PoolState(g, s.pools), holder)
  {
  }

  /**
   * Acquiring keeps the pool invariant and changes no object but a child of
   * the holder; the object handed out is then in no pool.
   */
  lemma AcquiredSound(s: PoolState, prefabs: seq<Prefab>, holder: Id, prefab: Prefab)
    requires Managed(s, prefabs, holder) && PoolsSound(s, holder) && prefab in s.pools
    ensures var r, x := Acquired(s, prefab), AcquiredId(s, prefab);
            PoolsSound(r, holder) && Unqueued(r.pools, x) && Confined(s.g, r.g, {Some(holder)})
  {
    var r, x := Acquired(s, prefab), AcquiredId(s, prefab);
    if s.pools[prefab] != [] {
      DequeueOnce(s.pools, prefab);
      forall p, i | p in r.pools && 0 <= i < |r.pools[p]|
        ensures r.pools[p][i] == s.pools[p][if p == prefab then i + 1 else i]
      {
      }
    } else {
      assert forall p, i :: p in s.pools && 0 <= i < |s.pools[p]| ==> s.pools[p][i] < s.g.next;
    }
    ConfinedOne(s.g, r.g, x, {Some(holder)});
  }

  /** A scene update that changes no object but one in no pool keeps the pool invariant. */
  lemma PoolsSoundOne(s: PoolState, holder: Id, g: Graph, x: Id)
    requires PoolsSound(s, holder) && Unqueued(s.pools, x)
    requires forall y :: y in s.g.nodes && y != x ==> y in g.nodes && g.nodes[y] == s.g.nodes[y]
    ensures PoolsSound(PoolState(g, s.pools), holder)
  {
  }

  /**
   * Releasing an object that is in no pool keeps the pool invariant and
   * changes that object alone, a child of its old parent.
   */
  lemma ReleaseStepSound(s: PoolState, prefabs: seq<Prefab>, holder: Id, x: Id)
    requires Managed(s, prefabs, holder) && PoolsSound(s, holder) && Unqueued(s.pools, x) && x in s.g.nodes && |prefabs| > 0
    ensures var r := ReleaseStep(s, prefabs, holder, x);
            PoolsSound(r, holder) && Confined(s.g, r.g, {s.g.nodes[x].parent})
  {
    var p := GetPrefabFromInstance(prefabs, s.g.nodes[x].name);
    ReleasedNodes(s.g, holder, p in s.pools, x);
    if p in s.pools {
      EnqueueOnce(s.pools, p, x);
    }
  }

  /**
   * Sweeping distinct children of a container other than the holder keeps
   * the pool invariant and changes only children of that container.
   */
  lemma {:induction false} SweepSound(s: PoolState, prefabs: seq<Prefab>, holder: Id, c: Id, xs: seq<Id>)
    requires Managed(s, prefabs, holder) && PoolsSound(s, holder) && c != holder && NoDup(xs) && (|prefabs| > 0 || xs == [])
    requires forall x :: x in xs ==> x in s.g.nodes && s.g.nodes[x].parent == Some(c)
    ensures var r := Sweep(s, prefabs, holder, xs);
            PoolsSound(r, holder) && Confined(s.g, r.g, {Some(c)})
    decreases |xs|
  {
    if xs != [] {
      var n := |xs|;
      var x, xs' := xs[n - 1], xs[..n - 1];
      var s' := ReleaseStep(s, prefabs, holder, x);
      ReleaseStepSound(s, prefabs, holder, x);
      ReleaseStepManaged(s, prefabs, holder, x);
      ReleasedNodes(s.g, holder, GetPrefabFromInstance(prefabs, s.g.nodes[x].name) in s.pools, x);
      NoDupPrefix(xs, n - 1);
      forall y | y in xs' ensures y in s'.g.nodes && s'.g.nodes[y].parent == Some(c) {
        assert y != x;
      }
      SweepSound(s', prefabs, holder, c, xs');
      ConfinedTrans(s.g, s'.g, Sweep(s', prefabs, holder, xs').g, {Some(c)});
    }
  }

  /** `ReturnAllObstacles` on a container other than the holder keeps the pool invariant and changes only the container's children. */
  lemma SweepChildrenSound(s: PoolState, prefabs: seq<Prefab>, holder: Id, c: Id)
    requires Managed(s, prefabs, holder) && PoolsSound(s, holder) && c in s.g.nodes && c != holder
    requires |prefabs| > 0 || s.g.kids[c] == []
    ensures c in s.g.kids
    ensures var r := Sweep(s, prefabs, holder, s.g.kids[c]);
            PoolsSound(r, holder) && Confined(s.g, r.g, {Some(c)})
  {
    var xs := s.g.kids[c];
    forall x | x in xs ensures x in s.g.nodes && s.g.nodes[x].parent == Some(c) {
      var i :| 0 <= i < |xs| && xs[i] == x;
    }
    SweepSound(s, prefabs, holder, c, xs);
  }

  /** The pools `Awake` records hold every new copy at one place of one pool only. */
  lemma {:induction false} BuiltOnce(g: Graph, holder: Id, prefabs: seq<Prefab>, size: nat, k: nat)
    requires k <= |prefabs| && holder in g.kids && forall y :: y in g.nodes ==> y < g.next
    ensures QueuedOnce(BuiltPools(g, holder, prefabs, size, k))
  {
    if k > 0 {
      BuiltOnce(g, holder, prefabs, size, k - 1);
      var pools, b := BuiltPools(g, holder, prefabs, size, k - 1), Built(g, holder, prefabs, size, k - 1);
      forall p | p in pools ensures forall x :: x in pools[p] ==> x < b.next {
        BuiltPoolsFresh(g, holder, prefabs, size, k - 1, p);
      }
      IdRangeAt(b.next, size);
      var q, r := prefabs[k - 1], BuiltPools(g, holder, prefabs, size, k);
      assert r == pools[q := IdRange(b.next, size)];
      forall p, i, p', j | p in r && p' in r && 0 <= i < |r[p]| && 0 <= j < |r[p']| && r[p][i] == r[p'][j]
        ensures p == p' && i == j
      {
        if p != q {
          assert r[p][i] == pools[p][i] && pools[p][i] in pools[p];
        }
        if p' != q {
          assert r[p'][j] == pools[p'][j] && pools[p'][j] in pools[p'];
        }
      }
    }
  }

  /** After `Awake` the pools satisfy the pool invariant. */
  lemma BuiltSound(g: Graph, holder: Id, prefabs: seq<Prefab>, size: nat)
    requires Consistent(g) && holder in g.nodes
    ensures var k := |prefabs|;
            PoolsSound(PoolState(Built(g, holder, prefabs, size, k), BuiltPools(g, holder, prefabs, size, k)), holder)
  {
    var k := |prefabs|;
    var pools := BuiltPools(g, holder, prefabs, size, k);
    BuiltOnce(g, holder, prefabs, size, k);
    forall p | p in pools
      ensures forall x :: x in pools[p] ==>
                var r := Built(g, holder, prefabs, size, k);
                x in r.nodes && !r.nodes[x].active && r.nodes[x].parent == Some(holder)
    {
      BuiltPoolsFresh(g, holder, prefabs, size, k, p);
    }
  }

  class ObstacleManager {
    const world: World
    /** The manager's own object, under which pooled instances are kept. */
    const holder: Id
    const obstaclePrefabs: seq<Prefab>
    const poolSizePerType: nat
    var pools: Pools

    ghost predicate Valid()
      reads this, world
    {
      Managed(PoolState(world.g, pools), obstaclePrefabs, holder)
    }

    /** The pool invariant of `PoolsSound`, kept apart from `Valid` because a second `ReturnObstacle` of a pooled object breaks it. */
    ghost predicate Sound()
      reads this, world
    {
      PoolsSound(PoolState(world.g, pools), holder)
    }

    /** Every prototype has a pool (true from `Awake` on). */
    predicate Complete()
      reads this
    {
      forall p :: p in obstaclePrefabs ==> p in pools
    }

    constructor (world: World, obstaclePrefabs: seq<Prefab>, poolSizePerType: nat)
      requires world.Valid()
      modifies world
      ensures Valid() && Sound() && this.world == world && pools == map[]
      ensures this.obstaclePrefabs == obstaclePrefabs && this.poolSizePerType == poolSizePerType
      ensures holder == old(world.g.next) && world.g == Spawn(old(world.g), "ObstacleManager", Untagged)
    {
      this.world := world;
      this.obstaclePrefabs := obstaclePrefabs;
      this.poolSizePerType := poolSizePerType;
      pools := map[];
      SpawnConsistent(world.g, "ObstacleManager", Untagged);
      var h := world.Create("ObstacleManager", Untagged);
      holder := h;
    }

    /**
     * `Awake`: for each prototype in order, `poolSizePerType` fresh inactive
     * copies parented to the manager, recorded as that prototype's pool.
     */
    method Awake()
      requires Valid() && pools == map[]
      modifies this, world
      ensures Valid() && Complete() && Sound()
      ensures world.g == Built(old(world.g), holder, obstaclePrefabs, poolSizePerType, |obstaclePrefabs|)
      ensures pools == BuiltPools(old(world.g), holder, obstaclePrefabs, poolSizePerType, |obstaclePrefabs|)
    {
      ghost var g0 := world.g;
      pools := FillPools(world, holder, obstaclePrefabs, poolSizePerType);
      BuiltManaged(g0, holder, obstaclePrefabs, poolSizePerType);
      BuiltSound(g0, holder, obstaclePrefabs, poolSizePerType);
    }

    /** `GetRandomObstaclePrefab`; the draw `Random.Range(0, Length)` is `pick` reduced modulo the count. */
    function GetRandomObstaclePrefab(pick: nat): (p: Prefab)
      requires |obstaclePrefabs| > 0
      ensures p in obstaclePrefabs
      ensures pick < |obstaclePrefabs| ==> p == obstaclePrefabs[pick]
    {
      obstaclePrefabs[pick % |obstaclePrefabs|]
    }

    /** `GetObstacle`: the head of the prototype's pool, or a fresh copy when it is empty; active either way. */
    method GetObstacle(prefab: Prefab) returns (obj: Id)
      requires Valid() && prefab in pools
      modifies this, world
      ensures Valid() && obj in world.g.nodes && world.g.nodes[obj].active
      ensures obj == AcquiredId(PoolState(old(world.g), old(pools)), prefab)
      ensures PoolState(world.g, pools) == Acquired(PoolState(old(world.g), old(pools)), prefab)
      ensures old(Sound()) ==> Sound() && Unqueued(pools, obj)
    {
      ghost var s0 := PoolState(world.g, pools);
      var pool := pools[prefab];
      if |pool| > 0 {
        obj := pool[0];
        pools := pools[prefab := pool[1..]];
      } else {
        SpawnConsistent(world.g, Names.CloneName(prefab.name), prefab.tag);
        obj := world.Instantiate(prefab.name, prefab.tag);
      }
      ActiveConsistent(world.g, obj, true);
      world.SetActive(obj, true);
      AcquiredManaged(s0, obstaclePrefabs, holder, prefab);
      if PoolsSound(s0, holder) {
        AcquiredSound(s0, obstaclePrefabs, holder, prefab);
      }
    }

    /**
     * `ReturnObstacle`: deactivate, move under the manager, and enqueue to the
     * resolved prototype's pool, or destroy the object when that prototype
     * has no pool.
     */
    method ReturnObstacle(obj: Id)
      requires Valid() && |obstaclePrefabs| > 0 && obj in world.g.nodes
      modifies this, world
      ensures Valid()
      ensures PoolState(world.g, pools) == ReleaseStep(PoolState(old(world.g), old(pools)), obstaclePrefabs, holder, obj)
      ensures old(Sound()) && old(Unqueued(pools, obj)) ==> Sound()
    {
      ghost var s0 := PoolState(world.g, pools);
      var prefab := GetPrefabFromInstance(obstaclePrefabs, world.g.nodes[obj].name);
      ghost var kept := prefab in pools;
      world.SetActive(obj, false);
      world.SetParent(obj, Some(holder));
      if prefab in pools {
        pools := pools[prefab := pools[prefab] + [obj]];
      } else {
        world.Destroy(obj);
      }
      assert world.g == Released(s0.g, holder, kept, obj);
      ReleaseStepManaged(s0, obstaclePrefabs, holder, obj);
      if PoolsSound(s0, holder) && Unqueued(s0.pools, obj) {
        ReleaseStepSound(s0, obstaclePrefabs, holder, obj);
      }
    }

    /**
     * `ReturnAllObstacles`: releases every child of `container`, whatever its
     * tag, from the last to the first.
     */
    method ReturnAllObstacles(container: Id)
      requires Valid() && container in world.g.nodes && container != holder
      requires |obstaclePrefabs| > 0 || world.g.kids[container] == []
      modifies this, world
      ensures Valid()
      ensures PoolState(world.g, pools) == Sweep(PoolState(old(world.g), old(pools)), obstaclePrefabs, holder, old(world.g.kids[container]))
      ensures old(Sound()) ==> Sound()
    {
      ghost var s0 := PoolState(world.g, pools);
      SweepBegin(s0, obstaclePrefabs, holder, container);
      ReturnChildren(container, s0, world.g.kids[container]);
      SweepEnd(PoolState(world.g, pools), s0, obstaclePrefabs, holder, container, old(world.g.kids[container]));
      if PoolsSound(s0, holder) {
        SweepChildrenSound(s0, obstaclePrefabs, holder, container);
      }
    }

    /** The loop of `ReturnAllObstacles`: releases the children still under `container`, last first. */
    method ReturnChildren(container: Id, ghost s0: PoolState, ghost ks: seq<Id>)
      requires SweepingAt(PoolState(world.g, pools), s0, obstaclePrefabs, holder, container, ks, |ks|)
      modifies this, world
      ensures SweepingAt(PoolState(world.g, pools), s0, obstaclePrefabs, holder, container, ks, 0)
    {
      var i: nat := |world.g.kids[container]|;
      while i > 0
        invariant SweepingAt(PoolState(world.g, pools), s0, obstaclePrefabs, holder, container, ks, i)
        invariant i > 0 ==> |obstaclePrefabs| > 0
      {
        ReturnLastChild(container, s0, ks, i);
        i := i - 1;
      }
    }

    /** One turn of the `ReturnAllObstacles` loop: releases the last child still under `container`. */
    method ReturnLastChild(container: Id, ghost s0: PoolState, ghost ks: seq<Id>, i: nat)
      requires 0 < i && SweepingAt(PoolState(world.g, pools), s0, obstaclePrefabs, holder, container, ks, i)
      modifies this, world
      ensures SweepingAt(PoolState(world.g, pools), s0, obstaclePrefabs, holder, container, ks, i - 1)
    {
      SweepLast(PoolState(world.g, pools), s0, obstaclePrefabs, holder, container, ks, i);
      var child := world.g.kids[container][i - 1];
      ReturnObstacle(child);
    }
  }
}
