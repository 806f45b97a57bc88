/**
 * `CoinManager`: a FIFO pool of inactive coins kept under the manager's own
 * object, the list of coins handed out, the score, and the two ways coins
 * are put on a platform: a whole line of coins at once, or a handful of
 * coins at random places, both kept clear of a shared occupancy list.
 */
module Coins {
  import opened Options
  import opened Seqs
  import opened Geometry
  import opened Scene
  import opened Placement
  import Names

  /** The serialized settings of the component. */
  datatype CoinSettings = CoinSettings(
    poolSize: nat,
    coinSpawnChance: real,
    coinLineSpawnChance: real,
    maxCoinsPerPlatform: int,
    minCoinSpacing: real,
    coinHeight: real,
    coinsPerLine: nat,
    coinLineSpacing: real,
    coinValue: int)

  /** The values the component is configured with by default. */
  const Defaults := CoinSettings(50, 0.4, 0.2, 3, 2.0, 1.0, 5, 1.5, 5)

  /** The scene, the pooled coins (head first), the coins handed out, and the score. */
  datatype CoinState = CoinState(g: Graph, pool: seq<Id>, active: seq<Id>, score: int)

  /** The manager's invariant: a consistent scene holding the manager's object and every coin it knows. */
  ghost predicate CoinsManaged(s: CoinState, holder: Id) {
    && Consistent(s.g)
    && holder in s.g.nodes
    && (forall i :: 0 <= i < |s.pool| ==> s.pool[i] in s.g.nodes)
    && (forall i :: 0 <= i < |s.active| ==> s.active[i] in s.g.nodes)
  }

  /** Another manager's update of the shared scene that keeps it consistent and removes no object keeps the invariant. */
  lemma CoinsMoved(s: CoinState, holder: Id, g: Graph)
    requires CoinsManaged(s, holder) && Consistent(g) && s.g.nodes.Keys <= g.nodes.Keys
    ensures CoinsManaged(s.(g := g), holder)
  {
  }

  /**
   * The pool invariant: every pooled coin is an inactive child of `holder`;
   * no coin is pooled twice or handed out twice, and none is both pooled and
   * handed out.
   */
  ghost predicate CoinsSound(s: CoinState, holder: Id) {
    && (forall i :: 0 <= i < |s.pool| ==>
          s.pool[i] in s.g.nodes && !s.g.nodes[s.pool[i]].active && s.g.nodes[s.pool[i]].parent == Some(holder))
    && NoDup(s.pool) && NoDup(s.active)
    && (forall i, j :: 0 <= i < |s.pool| && 0 <= j < |s.active| ==> s.pool[i] != s.active[j])
  }

  /** An update of the scene that leaves the holder's children alone keeps the pool invariant. */
  lemma CoinsSoundMoved(s: CoinState, holder: Id, g: Graph, touched: set<Option<Id>>)
    requires CoinsSound(s, holder) && Confined(s.g, g, touched) && Some(holder) !in touched
    ensures CoinsSound(s.(g := g), holder)
  {
  }

  // ---------------------------------------------------------------------
  // One coin out, one coin back
  // ---------------------------------------------------------------------

  /** The coin `GetCoin` hands out: the head of the pool, or the id the new copy gets. */
  function NextCoin(s: CoinState): Id {
    if s.pool != [] then s.pool[0] else s.g.next
  }

  /** `GetCoin`: dequeue the head of the pool or instantiate a new copy, and add the coin to the active list. */
  function Take(s: CoinState, name: string, tag: Tag): CoinState {
    if s.pool != [] then s.(pool := s.pool[1..], active := s.active + [s.pool[0]])
    else s.(g := Spawn(s.g, Names.CloneName(name), tag), active := s.active + [s.g.next])
  }

  /**
   * Handing out a coin keeps the invariant and changes no existing object;
   * the coin is in the scene, and it is a new object exactly when the pool
   * was empty.
   */
  lemma TakeManaged(s: CoinState, holder: Id, name: string, tag: Tag)
    requires CoinsManaged(s, holder)
    ensures CoinsManaged(Take(s, name, tag), holder)
    ensures NextCoin(s) in Take(s, name, tag).g.nodes
    ensures NextCoin(s) !in s.g.nodes <==> s.pool == []
    ensures forall y :: y in s.g.nodes ==> y in Take(s, name, tag).g.nodes && Take(s, name, tag).g.nodes[y] == s.g.nodes[y]
  {
    if s.pool == [] {
      SpawnConsistent(s.g, Names.CloneName(name), tag);
    }
  }

  /**
   * `ReturnCoin`: deactivate the coin, move it under the manager, drop it
   * from the active list, enqueue it, and add `value` to the score (an
   * object missing from the scene, which the manager never holds, changes
   * nothing).
   */
  function ReturnStep(s: CoinState, holder: Id, value: int, x: Id): CoinState {
    if x !in s.g.nodes || holder !in s.g.nodes then s
    else CoinState(WithParent(WithActive(s.g, x, false), x, Some(holder)), s.pool + [x], RemoveFirst(s.active, x), s.score + value)
  }

  /** Taking a coin back keeps the invariant; only that coin changes, and it ends inactive under the manager. */
  lemma ReturnStepManaged(s: CoinState, holder: Id, value: int, x: Id)
    requires CoinsManaged(s, holder) && x in s.g.nodes
    ensures var r := ReturnStep(s, holder, value, x);
            && CoinsManaged(r, holder)
            && r.g.nodes.Keys == s.g.nodes.Keys && r.g.next == s.g.next
            && r.g.nodes[x] == s.g.nodes[x].(active := false, parent := Some(holder))
            && (forall y :: y in s.g.nodes && y != x ==> r.g.nodes[y] == s.g.nodes[y])
  {
    ActiveConsistent(s.g, x, false);
    ParentConsistent(WithActive(s.g, x, false), x, Some(holder));
    var r := ReturnStep(s, holder, value, x);
    forall i | 0 <= i < |r.active| ensures r.active[i] in s.g.nodes {
      assert r.active[i] in s.active;
    }
  }

  /** Returning a child of some container other than the manager's object takes it out of that container's list. */
  lemma ReturnStepKids(s: CoinState, holder: Id, value: int, x: Id, c: Id)
    requires CoinsManaged(s, holder) && x in s.g.nodes && c in s.g.kids && c != holder
    ensures var r := ReturnStep(s, holder, value, x);
            c in r.g.kids && r.g.kids[c] == if s.g.nodes[x].parent == Some(c) then RemoveFirst(s.g.kids[c], x) else s.g.kids[c]
  {
    var g1 := WithActive(s.g, x, false);
    if g1.nodes[x].parent != Some(holder) {
      ReparentAt(g1.kids, x, g1.nodes[x].parent, Some(holder), c);
    }
  }

  /**
   * Handing out a coin keeps the pool invariant and changes no existing
   * object; the coin is no longer pooled.
   */
  lemma TakeSound(s: CoinState, holder: Id, name: string, tag: Tag)
    requires CoinsManaged(s, holder) && CoinsSound(s, holder)
    ensures var r := Take(s, name, tag);
            CoinsSound(r, holder) && NextCoin(s) !in r.pool && Confined(s.g, r.g, {})
  {
    var r, x := Take(s, name, tag), NextCoin(s);
    if s.pool != [] {
      NoDupTail(s.pool);
      assert forall j :: 0 <= j < |s.active| ==> s.pool[0] != s.active[j];
      NoDupAppend(s.active, x);
      forall i, j | 0 <= i < |r.pool| && 0 <= j < |r.active| ensures r.pool[i] != r.active[j] {
        assert r.pool[i] == s.pool[i + 1];
        if j == |s.active| {
          assert s.pool[i + 1] != s.pool[0];
        }
      }
    } else {
      assert x !in s.active;
      NoDupAppend(s.active, x);
    }
  }

  /**
   * Taking back a coin that is not pooled keeps the pool invariant and
   * changes that coin alone, a child of its old parent.
   */
  lemma ReturnStepSound(s: CoinState, holder: Id, value: int, x: Id)
    requires CoinsManaged(s, holder) && CoinsSound(s, holder) && x !in s.pool && x in s.g.nodes
    ensures var r := ReturnStep(s, holder, value, x);
            CoinsSound(r, holder) && Confined(s.g, r.g, {s.g.nodes[x].parent})
  {
    var r := ReturnStep(s, holder, value, x);
    ReturnStepManaged(s, holder, value, x);
    NoDupAppend(s.pool, x);
    NoDupRemove(s.active, x);
    forall i, j | 0 <= i < |r.pool| && 0 <= j < |r.active| ensures r.pool[i] != r.active[j] {
      assert r.active[j] in s.active && r.active[j] != x;
      if i < |s.pool| {
        var j' :| 0 <= j' < |s.active| && s.active[j'] == r.active[j];
      }
    }
  }

  /**
   * A coin handed out and returned again rotates the pool: the coin goes
   * from the head to the tail (a new coin just joins the pool), the active
   * list is as before, and the score has risen by `value`.
   */
  lemma TakeThenReturn(s: CoinState, holder: Id, name: string, tag: Tag, value: int)
    requires CoinsManaged(s, holder) && CoinsSound(s, holder)
    ensures var x, r := NextCoin(s), ReturnStep(Take(s, name, tag), holder, value, NextCoin(s));
            && r.pool == (if s.pool != [] then s.pool[1..] else []) + [x]
            && r.active == s.active
            && r.score == s.score + value
  {
    var x := NextCoin(s);
    TakeManaged(s, holder, name, tag);
    if s.pool == [] {
      assert x !in s.active;
    } else {
      assert forall j :: 0 <= j < |s.active| ==> s.pool[0] != s.active[j];
    }
    RemoveFirstSnoc(s.active, x);
  }

  // ---------------------------------------------------------------------
  // Returning the coins among a container's children
  // ---------------------------------------------------------------------

  predicate IsCoin(nodes: map<Id, Node>, x: Id) {
    x in nodes && nodes[x].tag == CoinTag
  }

  /** `ReturnAllCoins` on a snapshot `xs` of the children: from the last to the first, return the ones tagged "Coin". */
  function CoinSweep(s: CoinState, holder: Id, value: int, xs: seq<Id>): CoinState
    decreases |xs|
  {
    if xs == [] then s
    else
      var x := xs[|xs| - 1];
      CoinSweep(if IsCoin(s.g.nodes, x) then ReturnStep(s, holder, value, x) else s, holder, value, xs[..|xs| - 1])
  }

  /** The coins of `xs`, last to first: the order in which a sweep enqueues them. */
  function CoinsLastFirst(nodes: map<Id, Node>, xs: seq<Id>): seq<Id> {
    if xs == [] then []
    else
      var x := xs[|xs| - 1];
      (if IsCoin(nodes, x) then [x] else []) + CoinsLastFirst(nodes, xs[..|xs| - 1])
  }

  /** The children of `xs` that are not coins, in their order. */
  function NonCoins(nodes: map<Id, Node>, xs: seq<Id>): seq<Id> {
    if xs == [] then []
    else
      var x := xs[|xs| - 1];
      NonCoins(nodes, xs[..|xs| - 1]) + (if IsCoin(nodes, x) then [] else [x])
  }

  /** Two scenes that agree on which of `xs` exist and on their tags. */
  predicate SameTags(n1: map<Id, Node>, n2: map<Id, Node>, xs: seq<Id>) {
    forall x :: x in xs ==> (x in n1 <==> x in n2) && (x in n1 ==> n1[x].tag == n2[x].tag)
  }

  /** Which children are coins depends only on the tags. */
  lemma {:induction false} SameTagsCoins(n1: map<Id, Node>, n2: map<Id, Node>, xs: seq<Id>)
    requires SameTags(n1, n2, xs)
    ensures CoinsLastFirst(n1, xs) == CoinsLastFirst(n2, xs)
    ensures NonCoins(n1, xs) == NonCoins(n2, xs)
    ensures CountTagged(n1, xs, CoinTag) == CountTagged(n2, xs, CoinTag)
  {
    if xs != [] {
      SameTagsCoins(n1, n2, xs[..|xs| - 1]);
    }
  }

  /** A coin sweep keeps the invariant, removes no object and renames or retags none. */
  lemma {:induction false} CoinSweepManaged(s: CoinState, holder: Id, value: int, xs: seq<Id>)
    requires CoinsManaged(s, holder)
    ensures var r := CoinSweep(s, holder, value, xs);
            && CoinsManaged(r, holder)
            && r.g.nodes.Keys == s.g.nodes.Keys
            && (forall y :: y in s.g.nodes ==> r.g.nodes[y].tag == s.g.nodes[y].tag)
    decreases |xs|
  {
    if xs != [] {
      var x := xs[|xs| - 1];
      if IsCoin(s.g.nodes, x) {
        ReturnStepManaged(s, holder, value, x);
      }
      CoinSweepManaged(if IsCoin(s.g.nodes, x) then ReturnStep(s, holder, value, x) else s, holder, value, xs[..|xs| - 1]);
    }
  }

  /** One step of a sweep changes no tag, so the rest of the sweep sees the same coins. */
  lemma SweepStepTags(s: CoinState, holder: Id, value: int, xs: seq<Id>)
    requires CoinsManaged(s, holder) && xs != []
    ensures var x := xs[|xs| - 1];
            var s1 := if IsCoin(s.g.nodes, x) then ReturnStep(s, holder, value, x) else s;
            && CoinsManaged(s1, holder)
            && SameTags(s1.g.nodes, s.g.nodes, xs[..|xs| - 1])
  {
    var x := xs[|xs| - 1];
    if IsCoin(s.g.nodes, x) {
      ReturnStepManaged(s, holder, value, x);
    }
  }

  /** The score rises by `value` once per coin among the children, and only for coins. */
  lemma {:induction false} CoinSweepScore(s: CoinState, holder: Id, value: int, xs: seq<Id>)
    requires CoinsManaged(s, holder)
    ensures CoinSweep(s, holder, value, xs).score == s.score + value * CountTagged(s.g.nodes, xs, CoinTag)
    decreases |xs|
  {
    if xs != [] {
      var x := xs[|xs| - 1];
      var xs' := xs[..|xs| - 1];
      var s1 := if IsCoin(s.g.nodes, x) then ReturnStep(s, holder, value, x) else s;
      SweepStepTags(s, holder, value, xs);
      CoinSweepScore(s1, holder, value, xs');
      SameTagsCoins(s1.g.nodes, s.g.nodes, xs');
      ScoreStep(s, holder, value, xs);
    }
  }

  /** One step of that sweep adds `value` for a coin and nothing otherwise. */
  lemma ScoreStep(s: CoinState, holder: Id, value: int, xs: seq<Id>)
    requires holder in s.g.nodes && xs != []
    ensures var x, xs' := xs[|xs| - 1], xs[..|xs| - 1];
            var s1 := if IsCoin(s.g.nodes, x) then ReturnStep(s, holder, value, x) else s;
            s1.score + value * CountTagged(s.g.nodes, xs', CoinTag) == s.score + value * CountTagged(s.g.nodes, xs, CoinTag)
  {
    var x, xs' := xs[|xs| - 1], xs[..|xs| - 1];
    var own := if IsCoin(s.g.nodes, x) then 1 else 0;
    var k := CountTagged(s.g.nodes, xs', CoinTag);
    assert CountTagged(s.g.nodes, xs, CoinTag) == k + own;
    assert value * (k + own) == value * k + value * own;
  }

  /** The pool gains exactly the coins among the children, in the order they are returned (last child first). */
  lemma {:induction false} CoinSweepPool(s: CoinState, holder: Id, value: int, xs: seq<Id>)
    requires CoinsManaged(s, holder)
    ensures CoinSweep(s, holder, value, xs).pool == s.pool + CoinsLastFirst(s.g.nodes, xs)
    decreases |xs|
  {
    if xs != [] {
      var x := xs[|xs| - 1];
      var xs' := xs[..|xs| - 1];
      var s1 := if IsCoin(s.g.nodes, x) then ReturnStep(s, holder, value, x) else s;
      SweepStepTags(s, holder, value, xs);
      CoinSweepPool(s1, holder, value, xs');
      SameTagsCoins(s1.g.nodes, s.g.nodes, xs');
      var own := if IsCoin(s.g.nodes, x) then [x] else [];
      assert s1.pool == s.pool + own;
      AppendAssoc(s.pool, own, CoinsLastFirst(s.g.nodes, xs'));
    }
  }

  /**
   * Sweeping the children `xs` of a container (other than the manager's
   * object), which are followed in its list by `rest`, leaves exactly the
   * non-coins of `xs`, in order, followed by `rest`.
   */
  lemma {:induction false} CoinSweepKids(s: CoinState, holder: Id, value: int, c: Id, xs: seq<Id>, rest: seq<Id>)
    requires CoinsManaged(s, holder) && c in s.g.kids && c != holder && s.g.kids[c] == xs + rest
    ensures var r := CoinSweep(s, holder, value, xs);
            c in r.g.kids && r.g.kids[c] == NonCoins(s.g.nodes, xs) + rest
    decreases |xs|, 1
  {
    if xs == [] {
      assert xs + rest == rest;
    } else if IsCoin(s.g.nodes, xs[|xs| - 1]) {
      CoinSweepKidsCoin(s, holder, value, c, xs, rest);
    } else {
      CoinSweepKidsOther(s, holder, value, c, xs, rest);
    }
  }

  /** `CoinSweepKids` when the last child swept is a coin. */
  lemma {:induction false} CoinSweepKidsCoin(s: CoinState, holder: Id, value: int, c: Id, xs: seq<Id>, rest: seq<Id>)
    requires CoinsManaged(s, holder) && c in s.g.kids && c != holder && s.g.kids[c] == xs + rest
    requires xs != [] && IsCoin(s.g.nodes, xs[|xs| - 1])
    ensures var r := CoinSweep(s, holder, value, xs);
            c in r.g.kids && r.g.kids[c] == NonCoins(s.g.nodes, xs) + rest
    decreases |xs|, 0
  {
    var x := xs[|xs| - 1];
    var xs' := xs[..|xs| - 1];
    assert xs == xs' + [x];
    var s1 := ReturnStep(s, holder, value, x);
    SweepStepTags(s, holder, value, xs);
    KidsStepCoin(s, holder, value, c, xs', x, rest);
    SameTagsCoins(s1.g.nodes, s.g.nodes, xs');
    CoinSweepKids(s1, holder, value, c, xs', rest);
  }

  /** `CoinSweepKids` when the last child swept is not a coin. */
  lemma {:induction false} CoinSweepKidsOther(s: CoinState, holder: Id, value: int, c: Id, xs: seq<Id>, rest: seq<Id>)
    requires CoinsManaged(s, holder) && c in s.g.kids && c != holder && s.g.kids[c] == xs + rest
    requires xs != [] && !IsCoin(s.g.nodes, xs[|xs| - 1])
    ensures var r := CoinSweep(s, holder, value, xs);
            c in r.g.kids && r.g.kids[c] == NonCoins(s.g.nodes, xs) + rest
    decreases |xs|, 0
  {
    var x := xs[|xs| - 1];
    var xs' := xs[..|xs| - 1];
    assert xs == xs' + [x];
    KidsStepOther(s.g.nodes, xs', x, rest);
    CoinSweepKids(s, holder, value, c, xs', [x] + rest);
  }

  /** A coin at the end of the swept part leaves its container's list. */
  lemma KidsStepCoin(s: CoinState, holder: Id, value: int, c: Id, xs': seq<Id>, x: Id, rest: seq<Id>)
    requires CoinsManaged(s, holder) && c in s.g.kids && c != holder && s.g.kids[c] == xs' + [x] + rest
    requires IsCoin(s.g.nodes, x)
    ensures var s1 := ReturnStep(s, holder, value, x);
            c in s1.g.kids && s1.g.kids[c] == xs' + rest
  {
    var n := |xs'| + 1;
    assert (xs' + [x] + rest)[n - 1] == x;
    assert x in s.g.kids[c];
    assert s.g.nodes[x].parent == Some(c);
    NoDupPrefix(s.g.kids[c], n);
    assert (xs' + [x] + rest)[..n] == xs' + [x];
    CutLast(xs' + [x], n - 1);
    RemoveFirstSplit(xs', x, rest);
    ReturnStepKids(s, holder, value, x, c);
  }

  /** Anything else at the end of the swept part stays, at the head of what follows. */
  lemma KidsStepOther(nodes: map<Id, Node>, xs': seq<Id>, x: Id, rest: seq<Id>)
    requires !IsCoin(nodes, x)
    ensures xs' + [x] + rest == xs' + ([x] + rest)
    ensures NonCoins(nodes, xs' + [x]) + rest == NonCoins(nodes, xs') + ([x] + rest)
  {
    assert (xs' + [x])[..|xs'|] == xs';
    AppendAssoc(NonCoins(nodes, xs'), [x], rest);
  }

  /** One turn of the `ReturnAllCoins` loop: the `i`-th child is still where it was, and the rest of the sweep is what is left to do. */
  lemma CoinSweepStep(s: CoinState, holder: Id, value: int, c: Id, ks: seq<Id>, i: nat)
    requires CoinsManaged(s, holder) && c in s.g.kids && c != holder
    requires 0 < i <= |ks| && i <= |s.g.kids[c]| && s.g.kids[c][..i] == ks[..i]
    ensures var x := ks[i - 1];
            var s1 := if IsCoin(s.g.nodes, x) then ReturnStep(s, holder, value, x) else s;
            && x in s.g.nodes
            && CoinsManaged(s1, holder) && c in s1.g.kids
            && i - 1 <= |s1.g.kids[c]| && s1.g.kids[c][..i - 1] == ks[..i - 1]
            && CoinSweep(s, holder, value, ks[..i]) == CoinSweep(s1, holder, value, ks[..i - 1])
  {
    var x := ks[i - 1];
    assert s.g.kids[c][i - 1] == x;
    assert ks[..i][..i - 1] == ks[..i - 1];
    if IsCoin(s.g.nodes, x) {
      CoinSweepStepCoin(s, holder, value, c, i);
    }
  }

  /** The coin case of that step: the coin leaves its place in the list, and what precedes it stays. */
  lemma CoinSweepStepCoin(s: CoinState, holder: Id, value: int, c: Id, i: nat)
    requires CoinsManaged(s, holder) && c in s.g.kids && c != holder
    requires 0 < i <= |s.g.kids[c]| && IsCoin(s.g.nodes, s.g.kids[c][i - 1])
    ensures var s1 := ReturnStep(s, holder, value, s.g.kids[c][i - 1]);
            && CoinsManaged(s1, holder) && c in s1.g.kids
            && i - 1 <= |s1.g.kids[c]| && s1.g.kids[c][..i - 1] == s.g.kids[c][..i - 1]
  {
    var kids := s.g.kids[c];
    var x := kids[i - 1];
    ReturnStepManaged(s, holder, value, x);
    ReturnStepKids(s, holder, value, x, c);
    forall j | 0 <= j < i - 1 ensures kids[j] != kids[i - 1] {
    }
    RemoveFirstFirst(kids, i - 1);
    var r := ReturnStep(s, holder, value, x).g.kids[c];
    assert r == kids[..i - 1] + kids[i..];
    assert r[..i - 1] == kids[..i - 1];
  }

  /**
   * Sweeping distinct children of a container other than the holder keeps
   * the pool invariant and changes only children of that container.
   */
  lemma {:induction false} CoinSweepSound(s: CoinState, holder: Id, value: int, c: Id, xs: seq<Id>)
    requires CoinsManaged(s, holder) && CoinsSound(s, holder) && c != holder && NoDup(xs)
    requires forall x :: x in xs ==> x in s.g.nodes && s.g.nodes[x].parent == Some(c)
    ensures var r := CoinSweep(s, holder, value, xs);
            CoinsSound(r, holder) && Confined(s.g, r.g, {Some(c)})
    decreases |xs|
  {
    if xs != [] {
      var n := |xs|;
      var x, xs' := xs[n - 1], xs[..n - 1];
      var s1 := if IsCoin(s.g.nodes, x) then ReturnStep(s, holder, value, x) else s;
      if IsCoin(s.g.nodes, x) {
        ReturnStepSound(s, holder, value, x);
        ReturnStepManaged(s, holder, value, x);
      }
      NoDupPrefix(xs, n - 1);
      forall y | y in xs' ensures y in s1.g.nodes && s1.g.nodes[y].parent == Some(c) {
        assert y != x;
      }
      CoinSweepSound(s1, holder, value, c, xs');
      ConfinedTrans(s.g, s1.g, CoinSweep(s1, holder, value, xs').g, {Some(c)});
    }
  }

  /** `ReturnAllCoins` on a container other than the holder keeps the pool invariant and changes only the container's children. */
  lemma CoinSweepChildrenSound(s: CoinState, holder: Id, value: int, c: Id)
    requires CoinsManaged(s, holder) && CoinsSound(s, holder) && c in s.g.nodes && c != holder
    ensures c in s.g.kids
    ensures var r := CoinSweep(s, holder, value, s.g.kids[c]);
            CoinsSound(r, holder) && Confined(s.g, r.g, {Some(c)})
  {
    var xs := s.g.kids[c];
    forall x | x in xs ensures x in s.g.nodes && s.g.nodes[x].parent == Some(c) {
      var i :| 0 <= i < |xs| && xs[i] == x;
    }
    CoinSweepSound(s, holder, value, c, xs);
  }

  // ---------------------------------------------------------------------
  // Placing coins
  // ---------------------------------------------------------------------

  /** `SpawnCoinAtPosition`: take a coin, move it under `c` at local position `p`, and activate it. */
  function Placed(s: CoinState, name: string, tag: Tag, c: Id, p: Pos): CoinState {
    var x := NextCoin(s);
    var s1 := Take(s, name, tag);
    if x in s1.g.nodes && c in s1.g.nodes then
      s1.(g := WithActive(WithLocal(WithParent(s1.g, x, Some(c)), x, p), x, true))
    else s1
  }

  /** The coins placed at `ps`, one after the other. */
  function PlacedAll(s: CoinState, name: string, tag: Tag, c: Id, ps: seq<Pos>): CoinState
    decreases |ps|
  {
    if ps == [] then s else Placed(PlacedAll(s, name, tag, c, ps[..|ps| - 1]), name, tag, c, ps[|ps| - 1])
  }

  /**
   * Placing a coin keeps the invariant and the score and changes no other
   * object; the coin is active, under `c`, at `p`, and ends the active list.
   */
  lemma PlacedManaged(s: CoinState, holder: Id, name: string, tag: Tag, c: Id, p: Pos)
    requires CoinsManaged(s, holder) && c in s.g.nodes
    ensures var r, x := Placed(s, name, tag, c, p), NextCoin(s);
            && CoinsManaged(r, holder)
            && (forall y :: y in s.g.nodes ==> y in r.g.nodes)
            && (forall y :: y in s.g.nodes && y != x ==> r.g.nodes[y] == s.g.nodes[y])
            && x in r.g.nodes && r.g.nodes[x].parent == Some(c) && r.g.nodes[x].local == p && r.g.nodes[x].active
            && r.active == s.active + [x] && r.score == s.score
  {
    var x := NextCoin(s);
    var s1 := Take(s, name, tag);
    TakeManaged(s, holder, name, tag);
    ParentConsistent(s1.g, x, Some(c));
    var g2 := WithParent(s1.g, x, Some(c));
    LocalConsistent(g2, x, p);
    ActiveConsistent(WithLocal(g2, x, p), x, true);
  }

  /** Placing a run of coins keeps the invariant and the score, and hands out one coin per position. */
  lemma {:induction false} PlacedAllManaged(s: CoinState, holder: Id, name: string, tag: Tag, c: Id, ps: seq<Pos>)
    requires CoinsManaged(s, holder) && c in s.g.nodes
    ensures var r := PlacedAll(s, name, tag, c, ps);
            && CoinsManaged(r, holder)
            && (forall y :: y in s.g.nodes ==> y in r.g.nodes)
            && |r.active| == |s.active| + |ps| && r.active[..|s.active|] == s.active
            && r.score == s.score
    decreases |ps|
  {
    if ps != [] {
      var s1 := PlacedAll(s, name, tag, c, ps[..|ps| - 1]);
      PlacedAllManaged(s, holder, name, tag, c, ps[..|ps| - 1]);
      PlacedManaged(s1, holder, name, tag, c, ps[|ps| - 1]);
      assert (s1.active + [NextCoin(s1)])[..|s.active|] == s1.active[..|s.active|];
    }
  }

  /** Placing a coin keeps the pool invariant and changes no object but a child of the holder. */
  lemma PlacedSound(s: CoinState, holder: Id, name: string, tag: Tag, c: Id, p: Pos)
    requires CoinsManaged(s, holder) && CoinsSound(s, holder) && c in s.g.nodes
    ensures var r := Placed(s, name, tag, c, p);
            CoinsSound(r, holder) && Confined(s.g, r.g, {Some(holder)})
  {
    var x, r := NextCoin(s), Placed(s, name, tag, c, p);
    TakeSound(s, holder, name, tag);
    TakeManaged(s, holder, name, tag);
    PlacedManaged(s, holder, name, tag, c, p);
    forall i | 0 <= i < |r.pool| ensures r.pool[i] != x {
    }
    ConfinedOne(s.g, r.g, x, {Some(holder)});
  }

  /** Placing a run of coins keeps the pool invariant and changes no object but children of the holder. */
  lemma {:induction false} PlacedAllSound(s: CoinState, holder: Id, name: string, tag: Tag, c: Id, ps: seq<Pos>)
    requires CoinsManaged(s, holder) && CoinsSound(s, holder) && c in s.g.nodes
    ensures var r := PlacedAll(s, name, tag, c, ps);
            CoinsSound(r, holder) && Confined(s.g, r.g, {Some(holder)})
    decreases |ps|
  {
    if ps != [] {
      var ps' := ps[..|ps| - 1];
      var s1 := PlacedAll(s, name, tag, c, ps');
      PlacedAllSound(s, holder, name, tag, c, ps');
      PlacedAllManaged(s, holder, name, tag, c, ps');
      PlacedSound(s1, holder, name, tag, c, ps[|ps| - 1]);
      ConfinedTrans(s.g, s1.g, PlacedAll(s, name, tag, c, ps).g, {Some(holder)});
    }
  }

  /** `InitializeCoinPool` keeps the pool invariant and changes no existing object. */
  lemma CoinPoolSound(s: CoinState, holder: Id, name: string, tag: Tag, n: nat)
    requires CoinsManaged(s, holder) && CoinsSound(s, holder)
    ensures var g := Copies(s.g, holder, name, tag, n);
            CoinsSound(CoinState(g, s.pool + IdRange(s.g.next, n), s.active, s.score), holder) && Confined(s.g, g, {})
  {
    var g := Copies(s.g, holder, name, tag, n);
    var added := IdRange(s.g.next, n);
    var r := CoinState(g, s.pool + added, s.active, s.score);
    CopiesOld(s.g, holder, name, tag, n);
    PoolCopies(s.g, holder, name, tag, n);
    IdRangeAt(s.g.next, n);
    forall i | 0 <= i < |r.pool|
      ensures (i < |s.pool| && r.pool[i] == s.pool[i] && r.pool[i] < s.g.next) || (i >= |s.pool| && r.pool[i] == s.g.next + (i - |s.pool|))
    {
    }
    forall j | 0 <= j < |s.active| ensures s.active[j] < s.g.next {
    }
  }

  lemma PlacedAllSnoc(s: CoinState, name: string, tag: Tag, c: Id, ps: seq<Pos>, p: Pos)
    ensures PlacedAll(s, name, tag, c, ps + [p]) == Placed(PlacedAll(s, name, tag, c, ps), name, tag, c, p)
  {
    assert (ps + [p])[..|ps|] == ps;
  }

  // ---------------------------------------------------------------------
  // Where coins go
  // ---------------------------------------------------------------------

  /** The positions of a coin line: lane `c.lane`, `startZ` drawn between 2 and the platform's length less the line and one unit. */
  function LinePlan(st: CoinSettings, length: real, c: Candidate): (ps: seq<Pos>)
    ensures |ps| == st.coinsPerLine
  {
    var startZ := Lerp(2.0, length - (st.coinsPerLine as real) * st.coinLineSpacing - 1.0, c.t);
    LinePositions(CoinLanes[c.lane], st.coinHeight, startZ, st.coinLineSpacing, st.coinsPerLine)
  }

  /** No position of `ps` is too close to any occupied one. */
  predicate AreaFree(ps: seq<Pos>, occ: seq<Pos>, min: real) {
    forall i :: 0 <= i < |ps| ==> !TooClose(ps[i], occ, min)
  }

  /** All of the line if its whole area is free, and nothing otherwise. */
  function LineAccepted(ps: seq<Pos>, occ: seq<Pos>, min: real): seq<Pos> {
    if AreaFree(ps, occ, min) then ps else []
  }

  /** A random coin: a lane, the coin height, and a z drawn between 1 and the platform's length less one. */
  function RandomCoinPos(st: CoinSettings, length: real, c: Candidate): Pos {
    Pos(CoinLanes[c.lane], st.coinHeight, Lerp(1.0, length - 1.0, c.t))
  }

  function RandomPlan(st: CoinSettings, length: real, cs: seq<Candidate>): (ps: seq<Pos>)
    ensures |ps| == |cs|
    ensures forall i :: 0 <= i < |cs| ==> ps[i] == RandomCoinPos(st, length, cs[i])
  {
    seq(|cs|, i requires 0 <= i < |cs| => RandomCoinPos(st, length, cs[i]))
  }

  /** The positions `SpawnRandomCoins` fills: greedy acceptance of the candidates up to the drawn target. */
  function RandomAccepted(st: CoinSettings, length: real, occ: seq<Pos>, pick: nat, cs: seq<Candidate>): seq<Pos> {
    Greedy(RandomPlan(st, length, cs), occ, st.minCoinSpacing, CoinTarget(st.maxCoinsPerPlatform, pick))
  }

  /** The random draws of one `SpawnCoinsOnPlatform`. */
  datatype CoinDraws = CoinDraws(spawn: Unit, line: Unit, lineCand: Candidate, target: nat, cands: seq<Candidate>)

  /** The positions `SpawnCoinsOnPlatform` fills with coins, in the order it fills them. */
  function CoinPlan(st: CoinSettings, length: real, occ: seq<Pos>, d: CoinDraws): seq<Pos> {
    if d.spawn > st.coinSpawnChance then []
    else if d.line < st.coinLineSpawnChance then LineAccepted(LinePlan(st, length, d.lineCand), occ, st.minCoinSpacing)
    else RandomAccepted(st, length, occ, d.target, d.cands)
  }

  /**
   * A coin line is all or nothing: either every coin of the line is placed,
   * all in one lane at the coin height, spaced `coinLineSpacing` apart and
   * each clear of the occupied positions, or none is, because one of them
   * would be too close.
   */
  lemma LineAtomic(st: CoinSettings, length: real, occ: seq<Pos>, c: Candidate)
    ensures var plan := LinePlan(st, length, c);
            var r := LineAccepted(plan, occ, st.minCoinSpacing);
            && (r == plan || r == [])
            && (r == plan ==> forall i :: 0 <= i < |r| ==>
                  && r[i].x == CoinLanes[c.lane] && r[i].y == st.coinHeight
                  && r[i].z == r[0].z + (i as real) * st.coinLineSpacing
                  && !TooClose(r[i], occ, st.minCoinSpacing))
            && (r != plan ==> exists i :: 0 <= i < |plan| && TooClose(plan[i], occ, st.minCoinSpacing))
  {
  }

  /**
   * The coins of a line are checked only against what was there before, not
   * against each other: with the default settings neighbouring coins of a
   * line are 1.5 apart, closer than the minimum coin spacing of 2.
   */
  lemma LineCoinsCrowded(length: real, c: Candidate, i: nat)
    requires 0 < i < Defaults.coinsPerLine
    ensures Closer(LinePlan(Defaults, length, c)[i], LinePlan(Defaults, length, c)[i - 1], Defaults.minCoinSpacing)
  {
    var plan := LinePlan(Defaults, length, c);
    var z0 := Lerp(2.0, length - 5.0 * 1.5 - 1.0, c.t);
    assert plan[i] == LinePos(CoinLanes[c.lane], 1.0, z0, 1.5, i);
    assert plan[i - 1] == LinePos(CoinLanes[c.lane], 1.0, z0, 1.5, i - 1);
    assert ((i - 1) as real) == (i as real) - 1.0;
    var dz := plan[i].z - plan[i - 1].z;
    assert dz == 1.5;
    assert plan[i].x - plan[i - 1].x == 0.0 && plan[i].y - plan[i - 1].y == 0.0;
    assert SqDist(plan[i], plan[i - 1]) == dz * dz;
  }

  /**
   * Random coins: at most the drawn target and at most one per attempt are
   * placed (none at all when the target drawn for a maximum of -2 or below is
   * not positive), each at a candidate position, and each clear of everything
   * occupied when it is accepted, including the coins accepted before it.
   */
  lemma RandomBounded(st: CoinSettings, length: real, occ: seq<Pos>, pick: nat, cs: seq<Candidate>)
    requires |cs| == Attempts
    ensures var r := RandomAccepted(st, length, occ, pick, cs);
            && |r| <= Attempts
            && (CoinTarget(st.maxCoinsPerPlatform, pick) >= 0 ==> |r| <= CoinTarget(st.maxCoinsPerPlatform, pick))
            && (CoinTarget(st.maxCoinsPerPlatform, pick) <= 0 ==> r == [])
            && (st.maxCoinsPerPlatform >= 1 ==> |r| <= st.maxCoinsPerPlatform)
            && (forall p :: p in r ==> p in RandomPlan(st, length, cs))
            && AcceptedClear(r, occ, st.minCoinSpacing)
  {
    var plan := RandomPlan(st, length, cs);
    var target := CoinTarget(st.maxCoinsPerPlatform, pick);
    GreedyBounded(plan, occ, st.minCoinSpacing, target);
    GreedySpaced(plan, occ, st.minCoinSpacing, target);
  }

  // ---------------------------------------------------------------------
  // The component
  // ---------------------------------------------------------------------

  class CoinManager {
    const world: World
    /** The manager's own object, under which pooled coins are kept. */
    const holder: Id
    const settings: CoinSettings
    /** The coin prototype's name and tag. */
    const coinName: string
    const coinTag: Tag
    var coinPool: seq<Id>
    var activeCoins: seq<Id>
    var score: int

    function State(): CoinState
      reads this, world
    {
      CoinState(world.g, coinPool, activeCoins, score)
    }

    ghost predicate Valid()
      reads this, world
    {
      CoinsManaged(State(), holder)
    }

    /**
     * The pool invariant. It is kept apart from `Valid` because returning a
     * coin that is already pooled enqueues it a second time and breaks it.
     */
    ghost predicate Sound()
      reads this, world
    {
      CoinsSound(State(), holder)
    }

    constructor (world: World, settings: CoinSettings, coinName: string, coinTag: Tag)
      requires world.Valid()
      modifies world
      ensures Valid() && Sound() && this.world == world && this.settings == settings
      ensures this.coinName == coinName && this.coinTag == coinTag
      ensures coinPool == [] && activeCoins == [] && score == 0
      ensures holder == old(world.g.next) && world.g == Spawn(old(world.g), "CoinManager", Untagged)
    {
      this.world := world;
      this.settings := settings;
      this.coinName := coinName;
      this.coinTag := coinTag;
      coinPool := [];
      activeCoins := [];
      score := 0;
      SpawnConsistent(world.g, "CoinManager", Untagged);
      var h := world.Create("CoinManager", Untagged);
      holder := h;
    }

    /** `InitializeCoinPool` (all of `Awake`): `poolSize` new inactive coins under the manager, enqueued in creation order. */
    method InitializeCoinPool()
      requires Valid()
      modifies this, world
      ensures Valid()
      ensures world.g == Copies(old(world.g), holder, Names.CloneName(coinName), coinTag, settings.poolSize)
      ensures coinPool == old(coinPool) + IdRange(old(world.g.next), settings.poolSize)
      ensures forall x :: x in IdRange(old(world.g.next), settings.poolSize) ==>
                x !in old(world.g.nodes) && x in world.g.nodes && world.g.nodes[x] == Node(Names.CloneName(coinName), coinTag, false, Some(holder), Origin, true)
      ensures activeCoins == old(activeCoins) && score == old(score)
      ensures old(Sound()) ==> Sound() && Confined(old(world.g), world.g, {})
    {
      ghost var s0 := State();
      ghost var g0 := world.g;
      var pool := BuildPool(world, holder, coinName, coinTag, settings.poolSize);
      coinPool := coinPool + pool;
      CopiesConsistent(g0, holder, Names.CloneName(coinName), coinTag, settings.poolSize);
      CopiesOld(g0, holder, Names.CloneName(coinName), coinTag, settings.poolSize);
      PoolCopies(g0, holder, Names.CloneName(coinName), coinTag, settings.poolSize);
      if CoinsSound(s0, holder) {
        CoinPoolSound(s0, holder, Names.CloneName(coinName), coinTag, settings.poolSize);
      }
    }

    /** `GetCoin`. */
    method GetCoin() returns (coin: Id)
      requires Valid()
      modifies this, world
      ensures Valid() && coin in world.g.nodes
      ensures coin == NextCoin(old(State())) && State() == Take(old(State()), coinName, coinTag)
      ensures old(Sound()) ==> Sound() && coin !in coinPool && Confined(old(world.g), world.g, {})
    {
      TakeManaged(State(), holder, coinName, coinTag);
      if Sound() {
        TakeSound(State(), holder, coinName, coinTag);
      }
      if |coinPool| > 0 {
        coin := coinPool[0];
        coinPool := coinPool[1..];
      } else {
        coin := world.Instantiate(coinName, coinTag);
      }
      activeCoins := activeCoins + [coin];
    }

    /** `ReturnCoin`, whatever the reason for the return. */
    method ReturnCoin(coin: Id)
      requires Valid() && coin in world.g.nodes
      modifies this, world
      ensures Valid()
      ensures State() == ReturnStep(old(State()), holder, settings.coinValue, coin)
      ensures old(Sound()) && coin !in old(coinPool) ==> Sound()
    {
      ReturnStepManaged(State(), holder, settings.coinValue, coin);
      if Sound() && coin !in coinPool {
        ReturnStepSound(State(), holder, settings.coinValue, coin);
      }
      world.SetActive(coin, false);
      world.SetParent(coin, Some(holder));
      activeCoins := RemoveFirst(activeCoins, coin);
      coinPool := coinPool + [coin];
      score := score + settings.coinValue;
    }

    /** `ReturnAllCoins`: from the last child of `container` to the first, return the ones tagged "Coin". */
    method ReturnAllCoins(container: Id)
      requires Valid() && container in world.g.nodes && container != holder
      modifies this, world
      ensures Valid()
      ensures State() == CoinSweep(old(State()), holder, settings.coinValue, old(world.g.kids[container]))
      ensures old(Sound()) ==> Sound() && Confined(old(world.g), world.g, {Some(container)})
    {
      ghost var s0 := State();
      var ks := world.g.kids[container];
      var i := |ks|;
      assert ks[..i] == ks;
      while i > 0
        invariant 0 <= i <= |ks| && Valid() && container in world.g.kids
        invariant i <= |world.g.kids[container]| && world.g.kids[container][..i] == ks[..i]
        invariant CoinSweep(State(), holder, settings.coinValue, ks[..i]) == CoinSweep(s0, holder, settings.coinValue, ks)
      {
        var child := world.g.kids[container][i - 1];
        assert child == ks[i - 1];
        CoinSweepStep(State(), holder, settings.coinValue, container, ks, i);
        if world.g.nodes[child].tag == CoinTag {
          ReturnCoin(child);
        }
        i := i - 1;
      }
      if CoinsSound(s0, holder) {
        CoinSweepChildrenSound(s0, holder, settings.coinValue, container);
      }
    }

    /** `IsPositionTooClose`: some existing position is closer to `position` than `minDistance`. */
    method IsPositionTooClose(position: Pos, existingPositions: seq<Pos>, minDistance: real) returns (r: bool)
      ensures r == TooClose(position, existingPositions, minDistance)
    {
      var k := 0;
      while k < |existingPositions|
        invariant 0 <= k <= |existingPositions|
        invariant forall j :: 0 <= j < k ==> !Closer(position, existingPositions[j], minDistance)
      {
        if Closer(position, existingPositions[k], minDistance) {
          return true;
        }
        k := k + 1;
      }
      return false;
    }

    /** `SpawnCoinAtPosition`: a coin from the pool (or a new one), put under `container` at `localPosition` and activated. */
    method SpawnCoinAtPosition(container: Id, localPosition: Pos)
      requires Valid() && container in world.g.nodes
      modifies this, world
      ensures Valid() && container in world.g.nodes
      ensures State() == Placed(old(State()), coinName, coinTag, container, localPosition)
      ensures old(Sound()) ==> Sound() && Confined(old(world.g), world.g, {Some(holder)})
    {
      PlacedManaged(State(), holder, coinName, coinTag, container, localPosition);
      if Sound() {
        PlacedSound(State(), holder, coinName, coinTag, container, localPosition);
      }
      var coin := GetCoin();
      world.SetParent(coin, Some(container));
      world.SetLocal(coin, localPosition);
      world.SetActive(coin, true);
    }

    /** `SpawnCoinLine`: check the whole line against `occupied` first, then place all of it, or nothing. */
    method SpawnCoinLine(container: Id, length: real, occupied: seq<Pos>, draw: Candidate) returns (occupied': seq<Pos>)
      requires Valid() && container in world.g.nodes
      modifies this, world
      ensures Valid()
      ensures var placed := LineAccepted(LinePlan(settings, length, draw), occupied, settings.minCoinSpacing);
              occupied' == occupied + placed && State() == PlacedAll(old(State()), coinName, coinTag, container, placed)
      ensures old(Sound()) ==> Sound() && Confined(old(world.g), world.g, {Some(holder)})
    {
      var plan := LinePlan(settings, length, draw);
      var areaFree := LineIsFree(plan, occupied);
      if !areaFree {
        assert occupied + [] == occupied;
        return occupied;
      }
      occupied' := PlaceAll(container, occupied, plan);
    }

    /** The first loop of `SpawnCoinLine`: does any position of the line come too close to an occupied one? */
    method LineIsFree(plan: seq<Pos>, occupied: seq<Pos>) returns (areaFree: bool)
      ensures areaFree == AreaFree(plan, occupied, settings.minCoinSpacing)
    {
      areaFree := true;
      var i := 0;
      while i < |plan|
        invariant 0 <= i <= |plan|
        invariant areaFree && forall j :: 0 <= j < i ==> !TooClose(plan[j], occupied, settings.minCoinSpacing)
      {
        var tooClose := IsPositionTooClose(plan[i], occupied, settings.minCoinSpacing);
        if tooClose {
          areaFree := false;
          break;
        }
        i := i + 1;
      }
    }

    /** The second loop of `SpawnCoinLine`: a coin at each position, each added to the occupancy list. */
    method PlaceAll(container: Id, occupied: seq<Pos>, ps: seq<Pos>) returns (occupied': seq<Pos>)
      requires Valid() && container in world.g.nodes
      modifies this, world
      ensures Valid()
      ensures occupied' == occupied + ps && State() == PlacedAll(old(State()), coinName, coinTag, container, ps)
      ensures old(Sound()) ==> Sound() && Confined(old(world.g), world.g, {Some(holder)})
    {
      ghost var s0 := State();
      occupied' := occupied;
      var i := 0;
      while i < |ps|
        invariant 0 <= i <= |ps| && Valid() && container in world.g.nodes
        invariant occupied' == occupied + ps[..i]
        invariant State() == PlacedAll(s0, coinName, coinTag, container, ps[..i])
      {
        PlacedAllSnoc(s0, coinName, coinTag, container, ps[..i], ps[i]);
        PrefixSnoc(ps, i);
        AppendAssoc(occupied, ps[..i], [ps[i]]);
        SpawnCoinAtPosition(container, ps[i]);
        occupied' := occupied' + [ps[i]];
        i := i + 1;
      }
      assert ps[..i] == ps;
      if CoinsSound(s0, holder) {
        PlacedAllSound(s0, holder, coinName, coinTag, container, ps);
      }
    }

    /**
     * `SpawnRandomCoins`: aim for `Random.Range(1, maxCoinsPerPlatform + 1)`
     * coins within ten attempts; each candidate clear of every occupied
     * position is taken and occupied in turn.
     */
    method SpawnRandomCoins(container: Id, length: real, occupied: seq<Pos>, pick: nat, cands: seq<Candidate>)
      returns (occupied': seq<Pos>)
      requires Valid() && container in world.g.nodes && |cands| == Attempts
      modifies this, world
      ensures Valid()
      ensures var placed := RandomAccepted(settings, length, occupied, pick, cands);
              occupied' == occupied + placed && State() == PlacedAll(old(State()), coinName, coinTag, container, placed)
      ensures old(Sound()) ==> Sound() && Confined(old(world.g), world.g, {Some(holder)})
    {
      ghost var s0 := State();
      ghost var plan := RandomPlan(settings, length, cands);
      ghost var placed := RandomAccepted(settings, length, occupied, pick, cands);
      ghost var acc: seq<Pos> := [];
      var coinsToSpawn := CoinTarget(settings.maxCoinsPerPlatform, pick);
      var attempts := Attempts;
      occupied' := occupied;
      GreedyStart(plan, occupied, settings.minCoinSpacing, coinsToSpawn);
      while coinsToSpawn > 0 && attempts > 0
        invariant 0 <= attempts <= Attempts && Valid() && container in world.g.nodes
        invariant occupied' == occupied + acc
        invariant OnCourse(plan, Attempts - attempts, occupied, acc, settings.minCoinSpacing, coinsToSpawn, placed)
        invariant State() == PlacedAll(s0, coinName, coinTag, container, acc)
      {
        var k := Attempts - attempts;
        var localPos := RandomCoinPos(settings, length, cands[k]);
        PlacedAllSnoc(s0, coinName, coinTag, container, acc, localPos);
        AppendAssoc(occupied, acc, [localPos]);
        var ok;
        ok, occupied' := TryCoin(container, localPos, occupied');
        GreedyAdvance(plan, k, occupied, acc, settings.minCoinSpacing, coinsToSpawn, placed, ok);
        if ok {
          acc := acc + [localPos];
          coinsToSpawn := coinsToSpawn - 1;
        }
        attempts := attempts - 1;
      }
      GreedyDone(plan, Attempts - attempts, occupied, acc, settings.minCoinSpacing, coinsToSpawn, placed);
      if CoinsSound(s0, holder) {
        PlacedAllSound(s0, holder, coinName, coinTag, container, placed);
      }
    }

    /** One attempt of `SpawnRandomCoins`: a coin at `localPos` if it is clear of every occupied position. */
    method TryCoin(container: Id, localPos: Pos, occupied: seq<Pos>) returns (placed: bool, occupied': seq<Pos>)
      requires Valid() && container in world.g.nodes
      modifies this, world
      ensures Valid() && container in world.g.nodes
      ensures placed == !TooClose(localPos, occupied, settings.minCoinSpacing)
      ensures occupied' == if placed then occupied + [localPos] else occupied
      ensures State() == if placed then Placed(old(State()), coinName, coinTag, container, localPos) else old(State())
      ensures old(Sound()) ==> Sound() && Confined(old(world.g), world.g, {Some(holder)})
    {
      var tooClose := IsPositionTooClose(localPos, occupied, settings.minCoinSpacing);
      placed := !tooClose;
      occupied' := occupied;
      if placed {
        SpawnCoinAtPosition(container, localPos);
        occupied' := occupied + [localPos];
      }
    }

    /** `SpawnCoinsOnPlatform`: nothing above the spawn chance; otherwise a coin line or random coins, by the second draw. */
    method SpawnCoinsOnPlatform(container: Id, length: real, occupied: seq<Pos>, d: CoinDraws) returns (occupied': seq<Pos>)
      requires Valid() && container in world.g.nodes && |d.cands| == Attempts
      modifies this, world
      ensures Valid()
      ensures var placed := CoinPlan(settings, length, occupied, d);
              occupied' == occupied + placed && State() == PlacedAll(old(State()), coinName, coinTag, container, placed)
      ensures old(Sound()) ==> Sound() && Confined(old(world.g), world.g, {Some(holder)})
    {
      if d.spawn > settings.coinSpawnChance {
        assert occupied + [] == occupied;
        return occupied;
      }
      var spawnCoinLine := d.line < settings.coinLineSpawnChance;
      if spawnCoinLine {
        occupied' := SpawnCoinLine(container, length, occupied, d.lineCand);
      } else {
        occupied' := SpawnRandomCoins(container, length, occupied, d.target, d.cands);
      }
    }
  }
}
