/**
 * The part of the engine's scene graph the managers rely on: game objects
 * with a name, a tag, an active flag, a parent and a local position, and
 * for every object the ordered list of its children, kept as a value of
 * type `Graph`; `World` is the one mutable scene the managers share.
 * `Instantiate`,
 * `SetActive`, `Transform.SetParent`, `localPosition` and `Destroy` are the
 * only operations the managers use on it.
 */
module Scene {
  import opened Options
  import opened Seqs
  import opened Geometry
  import Names

  type Id = nat

  /** The tags the managers compare against ("Obstacle", "Coin"); every other tag is `Untagged`. */
  datatype Tag = Untagged | ObstacleTag | CoinTag

  datatype Node = Node(name: string, tag: Tag, active: bool, parent: Option<Id>, local: Pos, alive: bool)

  /** The whole scene: every object, the ordered child list of every object, and the next unused id. */
  datatype Graph = Graph(nodes: map<Id, Node>, kids: map<Id, seq<Id>>, next: Id)

  /** `transform.SetParent(to)`: leave the old parent's child list, join the end of the new one; a no-op for the same parent. */
  function Reparent(kids: map<Id, seq<Id>>, x: Id, from: Option<Id>, to: Option<Id>): map<Id, seq<Id>> {
    if from == to then kids else Attach(Detach(kids, x, from), x, to)
  }

  function Detach(kids: map<Id, seq<Id>>, x: Id, from: Option<Id>): map<Id, seq<Id>> {
    if from.Some? && from.value in kids then kids[from.value := RemoveFirst(kids[from.value], x)] else kids
  }

  function Attach(kids: map<Id, seq<Id>>, x: Id, to: Option<Id>): map<Id, seq<Id>> {
    if to.Some? && to.value in kids then kids[to.value := kids[to.value] + [x]] else kids
  }

  /** Detaching `x` from `from` touches only that parent's list, removing `x` from it. */
  lemma DetachAt(kids: map<Id, seq<Id>>, x: Id, from: Option<Id>, c: Id)
    requires c in kids
    ensures Detach(kids, x, from).Keys == kids.Keys
    ensures Detach(kids, x, from)[c] == if from == Some(c) then RemoveFirst(kids[c], x) else kids[c]
  {
  }

  /** Moving `x` to a parent other than `c` changes the list of `c` only if `x` leaves it. */
  lemma ReparentAt(kids: map<Id, seq<Id>>, x: Id, from: Option<Id>, to: Option<Id>, c: Id)
    requires c in kids && to != Some(c)
    ensures Reparent(kids, x, from, to).Keys == kids.Keys
    ensures Reparent(kids, x, from, to)[c] == if from == Some(c) then RemoveFirst(kids[c], x) else kids[c]
  {
  }

  /** The local positions of the children in `ks` whose tag is `t` (or of all of them when `t` is None), in child order. */
  function PositionsOf(nodes: map<Id, Node>, ks: seq<Id>, t: Option<Tag>): (r: seq<Pos>)
    ensures |r| <= |ks|
  {
    if ks == [] then []
    else
      var last := ks[|ks| - 1];
      var keep := last in nodes && (t.None? || nodes[last].tag == t.value);
      PositionsOf(nodes, ks[..|ks| - 1], t) + (if keep then [nodes[last].local] else [])
  }

  /** How many children in `ks` carry tag `t`. */
  function CountTagged(nodes: map<Id, Node>, ks: seq<Id>, t: Tag): (n: nat)
    ensures n <= |ks|
  {
    if ks == [] then 0
    else
      var last := ks[|ks| - 1];
      CountTagged(nodes, ks[..|ks| - 1], t) + (if last in nodes && nodes[last].tag == t then 1 else 0)
  }

  /**
   * The scene-graph invariant: every object has a child list, ids are below
   * `next`, child lists are duplicate-free, and every listed child names
   * that list's owner as its parent.
   */
  ghost predicate Consistent(g: Graph) {
    && g.kids.Keys == g.nodes.Keys
    && (forall x :: x in g.nodes ==> x < g.next)
    && (forall c :: c in g.kids ==> NoDup(g.kids[c]))
    && (forall c, i :: c in g.kids && 0 <= i < |g.kids[c]| ==> g.kids[c][i] in g.nodes && g.nodes[g.kids[c][i]].parent == Some(c))
  }

  /** Moving one object to a new parent keeps the scene graph consistent. */
  lemma ReparentConsistent(g: Graph, x: Id, p: Option<Id>)
    requires x in g.nodes && (p.Some? ==> p.value in g.nodes)
    requires g.nodes[x].parent != p
    ensures Consistent(g) ==> Consistent(Graph(g.nodes[x := g.nodes[x].(parent := p)], Reparent(g.kids, x, g.nodes[x].parent, p), g.next))
  {
    if !Consistent(g) { return; }
    var from := g.nodes[x].parent;
    var nodes' := g.nodes[x := g.nodes[x].(parent := p)];
    var k1 := Detach(g.kids, x, from);
    // after detaching, x is in no child list at all
    forall c | c in k1 ensures NoDup(k1[c]) && x !in k1[c] {
      if from.Some? && c == from.value {
        NoDupRemove(g.kids[c], x);
      } else {
        assert k1[c] == g.kids[c];
      }
    }
    forall c, y | c in k1 && y in k1[c] ensures y in nodes' && nodes'[y].parent == Some(c) {
      if from.Some? && c == from.value {
        NoDupRemove(g.kids[c], x);
      }
    }
    var k2 := Attach(k1, x, p);
    if p.Some? {
      NoDupAppend(k1[p.value], x);
    }
    assert Reparent(g.kids, x, from, p) == k2;
  }

  /** `Instantiate`/`new GameObject`: a fresh active root object with id `next`. */
  function Spawn(g: Graph, name: string, tag: Tag): (r: Graph)
  {
    Graph(g.nodes[g.next := Node(name, tag, true, None, Origin, true)], g.kids[g.next := []], g.next + 1)
  }

  /** `SetActive(b)` on one object. */
  function WithActive(g: Graph, x: Id, b: bool): (r: Graph)
    requires x in g.nodes
  {
    g.(nodes := g.nodes[x := g.nodes[x].(active := b)])
  }

  /** `transform.localPosition = p` on one object. */
  function WithLocal(g: Graph, x: Id, p: Pos): (r: Graph)
    requires x in g.nodes
  {
    g.(nodes := g.nodes[x := g.nodes[x].(local := p)])
  }

  /** `transform.SetParent(p)`: a no-op for the current parent, otherwise a move to the end of `p`'s children. */
  function WithParent(g: Graph, x: Id, p: Option<Id>): (r: Graph)
    requires x in g.nodes && (p.Some? ==> p.value in g.nodes)
    ensures r.nodes.Keys == g.nodes.Keys && r.kids.Keys == g.kids.Keys && r.next == g.next
    ensures r.nodes[x].parent == p
  {
    if g.nodes[x].parent == p then g
    else Graph(g.nodes[x := g.nodes[x].(parent := p)], Reparent(g.kids, x, g.nodes[x].parent, p), g.next)
  }

  /**
   * `Destroy(x)`: the object leaves its parent, is deactivated and is dead
   * from then on; its id stays taken. Only `x` itself is destroyed: the
   * engine would destroy its children as well, which this function does not
   * do. The managers reach `Destroy` only for a returned obstacle whose
   * prototype has no pool, which cannot happen once every prototype has one
   * (`ObstacleManager.Complete`, true from `Awake` on).
   */
  function Destroyed(g: Graph, x: Id): (r: Graph)
    requires x in g.nodes
    ensures r.nodes.Keys == g.nodes.Keys && r.kids.Keys == g.kids.Keys && r.next == g.next
    ensures r.nodes[x].parent == None && !r.nodes[x].active && !r.nodes[x].alive
  {
    var g1 := WithParent(g, x, None);
    g1.(nodes := g1.nodes[x := g1.nodes[x].(active := false, alive := false)])
  }

  /** The id handed out next is not in use yet, and the new object has no children. */
  lemma SpawnConsistent(g: Graph, name: string, tag: Tag)
    requires Consistent(g)
    ensures g.next !in g.nodes && Consistent(Spawn(g, name, tag))
  {
    var r := Spawn(g, name, tag);
    forall c, y | c in r.kids && y in r.kids[c] ensures y in r.nodes && r.nodes[y].parent == Some(c) {
      assert c != g.next;
      assert y in g.nodes && y != g.next;
    }
  }

  lemma ActiveConsistent(g: Graph, x: Id, b: bool)
    requires Consistent(g) && x in g.nodes
    ensures Consistent(WithActive(g, x, b))
  {
  }

  lemma LocalConsistent(g: Graph, x: Id, p: Pos)
    requires Consistent(g) && x in g.nodes
    ensures Consistent(WithLocal(g, x, p))
  {
  }

  lemma ParentConsistent(g: Graph, x: Id, p: Option<Id>)
    requires Consistent(g) && x in g.nodes && (p.Some? ==> p.value in g.nodes)
    ensures Consistent(WithParent(g, x, p))
  {
    if g.nodes[x].parent != p {
      ReparentConsistent(g, x, p);
    }
  }

  lemma DestroyedConsistent(g: Graph, x: Id)
    requires Consistent(g) && x in g.nodes
    ensures Consistent(Destroyed(g, x))
  {
    ParentConsistent(g, x, None);
  }

  /** The `n` consecutive ids from `start` on. */
  function IdRange(start: Id, n: nat): (r: seq<Id>)
    ensures |r| == n
  {
    if n == 0 then [] else IdRange(start, n - 1) + [start + n - 1]
  }

  /** `IdRange(start, n)` holds exactly the ids from `start` up to `start + n - 1`. */
  lemma {:induction false} IdRangeMembers(start: Id, n: nat)
    ensures forall x :: x in IdRange(start, n) <==> start <= x < start + n
  {
    if n > 0 {
      IdRangeMembers(start, n - 1);
    }
  }

  /** The `i`-th id of `IdRange(start, n)` is `start + i`. */
  lemma {:induction false} IdRangeAt(start: Id, n: nat)
    ensures forall i :: 0 <= i < n ==> IdRange(start, n)[i] == start + i
  {
    if n > 0 {
      IdRangeAt(start, n - 1);
    }
  }

  lemma IdRangeNext(start: Id, n: nat)
    ensures IdRange(start, n + 1) == IdRange(start, n) + [start + n]
  {
  }

  /** One pool object: a fresh inactive object called `name`, appended to the children of `holder`. */
  function AddCopy(g: Graph, holder: Id, name: string, tag: Tag): (r: Graph)
    requires holder in g.kids
  {
    Graph(g.nodes[g.next := Node(name, tag, false, Some(holder), Origin, true)],
          g.kids[g.next := []][holder := g.kids[holder] + [g.next]],
          g.next + 1)
  }

  /** Instantiating, deactivating and moving under `holder` is exactly one pool copy. */
  lemma AddCopySteps(g: Graph, holder: Id, name: string, tag: Tag)
    requires holder in g.nodes && holder in g.kids && holder < g.next
    ensures WithParent(WithActive(Spawn(g, name, tag), g.next, false), g.next, Some(holder)) == AddCopy(g, holder, name, tag)
  {
    var x := g.next;
    assert x != holder;
    var g2 := WithActive(Spawn(g, name, tag), x, false);
    assert g2.nodes[x].parent == None;
    var r := WithParent(g2, x, Some(holder));
    assert r.nodes == g.nodes[x := Node(name, tag, false, Some(holder), Origin, true)];
    assert r.kids == g.kids[x := []][holder := g.kids[holder] + [x]];
  }

  /** `n` fresh inactive objects called `name`, each moved under `holder` as it is made: a pool build. */
  function Copies(g: Graph, holder: Id, name: string, tag: Tag, n: nat): (r: Graph)
    requires holder in g.kids
    ensures holder in r.kids && r.next == g.next + n
    ensures holder in g.nodes ==> holder in r.nodes
  {
    if n == 0 then g else AddCopy(Copies(g, holder, name, tag, n - 1), holder, name, tag)
  }

  /** One pool copy keeps the scene consistent. */
  lemma AddCopyConsistent(g: Graph, holder: Id, name: string, tag: Tag)
    requires Consistent(g) && holder in g.nodes
    ensures Consistent(AddCopy(g, holder, name, tag))
  {
    SpawnConsistent(g, name, tag);
    var g2 := Spawn(g, name, tag);
    ActiveConsistent(g2, g.next, false);
    ParentConsistent(WithActive(g2, g.next, false), g.next, Some(holder));
    AddCopySteps(g, holder, name, tag);
  }

  /** A pool build adds exactly the ids from `g.next` to `g.next + n - 1`. */
  lemma {:induction false} CopiesKeys(g: Graph, holder: Id, name: string, tag: Tag, n: nat)
    requires holder in g.kids
    ensures forall x :: x in Copies(g, holder, name, tag, n).nodes <==> x in g.nodes || g.next <= x < g.next + n
  {
    if n > 0 {
      CopiesKeys(g, holder, name, tag, n - 1);
    }
  }

  lemma {:induction false} CopiesConsistent(g: Graph, holder: Id, name: string, tag: Tag, n: nat)
    requires Consistent(g) && holder in g.nodes
    ensures Consistent(Copies(g, holder, name, tag, n))
  {
    if n > 0 {
      CopiesConsistent(g, holder, name, tag, n - 1);
      AddCopyConsistent(Copies(g, holder, name, tag, n - 1), holder, name, tag);
    }
  }

  /** A pool build gives each new id an inactive object called `name` under `holder`. */
  lemma {:induction false} CopiesNew(g: Graph, holder: Id, name: string, tag: Tag, n: nat)
    requires holder in g.kids
    ensures forall x :: g.next <= x < g.next + n ==> x in Copies(g, holder, name, tag, n).nodes && Copies(g, holder, name, tag, n).nodes[x] == Node(name, tag, false, Some(holder), Origin, true)
  {
    if n > 0 {
      CopiesNew(g, holder, name, tag, n - 1);
    }
  }

  /** The ids a pool build hands out are exactly its new objects: inactive copies called `name` under `holder`. */
  lemma PoolCopies(g: Graph, holder: Id, name: string, tag: Tag, n: nat)
    requires holder in g.kids
    ensures forall x :: x in IdRange(g.next, n) ==> g.next <= x < g.next + n
    ensures forall x :: x in IdRange(g.next, n) ==>
              x in Copies(g, holder, name, tag, n).nodes && Copies(g, holder, name, tag, n).nodes[x] == Node(name, tag, false, Some(holder), Origin, true)
  {
    IdRangeMembers(g.next, n);
    CopiesNew(g, holder, name, tag, n);
  }

  /** A pool build changes no object that was there before. */
  lemma {:induction false} CopiesOld(g: Graph, holder: Id, name: string, tag: Tag, n: nat)
    requires holder in g.kids && forall y :: y in g.nodes ==> y < g.next
    ensures forall y :: y in g.nodes ==> y in Copies(g, holder, name, tag, n).nodes && Copies(g, holder, name, tag, n).nodes[y] == g.nodes[y]
  {
    if n > 0 {
      CopiesOld(g, holder, name, tag, n - 1);
    }
  }

  /** A pool build lists the new objects, in order, at the end of the holder's children. */
  lemma {:induction false} CopiesKids(g: Graph, holder: Id, name: string, tag: Tag, n: nat)
    requires holder in g.kids && holder < g.next
    ensures holder in Copies(g, holder, name, tag, n).kids
    ensures Copies(g, holder, name, tag, n).kids[holder] == g.kids[holder] + IdRange(g.next, n)
  {
    if n > 0 {
      CopiesKids(g, holder, name, tag, n - 1);
      var g1 := Copies(g, holder, name, tag, n - 1);
      assert g1.kids[holder] + [g1.next] == g.kids[holder] + IdRange(g.next, n);
    }
  }

  /**
   * `g'` keeps every object of `g` whose parent is not in `touched` as it
   * was (`None` standing for the roots): the frame of an update that only
   * changes children of the objects in `touched` and adds new objects.
   */
  ghost predicate Confined(g: Graph, g': Graph, touched: set<Option<Id>>) {
    forall y :: y in g.nodes && g.nodes[y].parent !in touched ==> y in g'.nodes && g'.nodes[y] == g.nodes[y]
  }

  lemma ConfinedTrans(g0: Graph, g1: Graph, g2: Graph, touched: set<Option<Id>>)
    requires Confined(g0, g1, touched) && Confined(g1, g2, touched)
    ensures Confined(g0, g2, touched)
  {
  }

  /** An update that changes no old object but `x` is confined to the children of `x`'s parent. */
  lemma ConfinedOne(g: Graph, g': Graph, x: Id, touched: set<Option<Id>>)
    requires forall y :: y in g.nodes && y != x ==> y in g'.nodes && g'.nodes[y] == g.nodes[y]
    requires x in g.nodes ==> g.nodes[x].parent in touched
    ensures Confined(g, g', touched)
  {
  }

  /**
   * The one scene the managers share. Every engine call is a plain update of
   * `g` by the function above that models it; that each update keeps the
   * scene `Consistent` is stated once, by the lemmas above, and the managers
   * invoke them where they need it.
   */
  class World {
    var g: Graph

    ghost predicate Valid()
      reads this
    {
      Consistent(g)
    }

    constructor ()
      ensures Valid() && g == Graph(map[], map[], 0)
    {
      g := Graph(map[], map[], 0);
    }

    /** A fresh active object with no parent, such as the object a manager component sits on. */
    method Create(name: string, tag: Tag) returns (x: Id)
      modifies this
      ensures x == old(g.next) && g == Spawn(old(g), name, tag)
    {
      x := g.next;
      g := Spawn(g, name, tag);
    }

    /** `Instantiate(prototype)`: a fresh active object with no parent, named after the prototype. */
    method Instantiate(name: string, tag: Tag) returns (x: Id)
      modifies this
      ensures x == old(g.next) && g == Spawn(old(g), Names.CloneName(name), tag)
    {
      x := Create(Names.CloneName(name), tag);
    }

    /** A fresh active child of `p` called `name` (a named child object that comes with a prototype's copy). */
    method AddChild(name: string, p: Id) returns (x: Id)
      requires p in g.nodes
      modifies this
      ensures x == old(g.next) && g == WithParent(Spawn(old(g), name, Untagged), x, Some(p))
    {
      x := Create(name, Untagged);
      g := WithParent(g, x, Some(p));
    }

    /** `SetActive(b)`. */
    method SetActive(x: Id, b: bool)
      requires x in g.nodes
      modifies this
      ensures g == WithActive(old(g), x, b)
    {
      g := WithActive(g, x, b);
    }

    /** `transform.localPosition = p`. */
    method SetLocal(x: Id, p: Pos)
      requires x in g.nodes
      modifies this
      ensures g == WithLocal(old(g), x, p)
    {
      g := WithLocal(g, x, p);
    }

    /** `transform.SetParent(p)`. */
    method SetParent(x: Id, p: Option<Id>)
      requires x in g.nodes && (p.Some? ==> p.value in g.nodes)
      modifies this
      ensures g == WithParent(old(g), x, p)
    {
      g := WithParent(g, x, p);
    }

    /** `Destroy(x)`. */
    method Destroy(x: Id)
      requires x in g.nodes
      modifies this
      ensures g == Destroyed(old(g), x)
    {
      g := Destroyed(g, x);
    }
  }

  /**
   * A pool build as both managers write it: `size` times, instantiate the
   * prototype called `name`, deactivate the copy, move it under `holder` and
   * enqueue it.
   */
  method BuildPool(world: World, holder: Id, name: string, tag: Tag, size: nat) returns (pool: seq<Id>)
    requires holder in world.g.nodes && holder in world.g.kids && holder < world.g.next
    modifies world
    ensures world.g == Copies(old(world.g), holder, Names.CloneName(name), tag, size)
    ensures pool == IdRange(old(world.g.next), size)
  {
    ghost var b := world.g;
    pool := [];
    var i := 0;
    while i < size
      invariant 0 <= i <= size && pool == IdRange(b.next, i)
      invariant world.g == Copies(b, holder, Names.CloneName(name), tag, i)
      invariant holder in world.g.nodes && holder < world.g.next
    {
      IdRangeNext(b.next, i);
      var x := AddPoolCopy(world, holder, name, tag);
      pool := pool + [x];
      i := i + 1;
    }
  }

  /** One turn of that loop, without the enqueue. */
  method AddPoolCopy(world: World, holder: Id, name: string, tag: Tag) returns (x: Id)
    requires holder in world.g.nodes && holder in world.g.kids && holder < world.g.next
    modifies world
    ensures x == old(world.g.next)
    ensures world.g == AddCopy(old(world.g), holder, Names.CloneName(name), tag)
  {
    ghost var g1 := world.g;
    x := world.Instantiate(name, tag);
    world.SetActive(x, false);
    world.SetParent(x, Some(holder));
    AddCopySteps(g1, holder, Names.CloneName(name), tag);
  }
}
