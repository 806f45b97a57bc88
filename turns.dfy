/**
 * Turn kinds of track platforms and the pure choices the track generator
 * makes about them: which kind a prototype is, which prototype replaces one
 * that would extend a streak, and which prototype an instance came from.
 */
module Turns {
  import opened Options
  import opened Geometry
  import Names

  datatype TurnType = Straight | Left | Right

  /**
   * A platform prototype: an identity, its name, the local pose of its
   * "EndPoint" child (None when it has none), and whether it has an
   * "Obstacles" child to hold content.
   */
  datatype PlatformPrefab = PlatformPrefab(id: nat, name: string, endPoint: Option<Pose>, hasContainer: bool)

  /** The three configured prototypes. Only `left` and `right` get pools. */
  datatype PrefabSet = PrefabSet(straight: PlatformPrefab, left: PlatformPrefab, right: PlatformPrefab)

  /** The two turn prototypes are different objects with different, clean names. */
  predicate Distinct(ps: PrefabSet) {
    ps.left != ps.right && ps.left.name != ps.right.name
    && Names.Clean(ps.left.name) && Names.Clean(ps.right.name)
  }

  /** `GetWeightedRandomPrefab` for the draw `rand` of `Random.Range(0, 10)`: left below 6 (six in ten), right otherwise. */
  function WeightedPrefab(ps: PrefabSet, rand: int): (p: PlatformPrefab)
    ensures p == ps.left <==> rand < 6 || ps.left == ps.right
    ensures p == ps.left || p == ps.right
  {
    if rand < 6 then ps.left else ps.right
  }

  /** `GetTurnType`: compares the prototype with the configured ones; the straight check is disabled in the source. */
  function GetTurnType(ps: PrefabSet, prefab: PlatformPrefab): TurnType {
    if prefab == ps.left then Left
    else if prefab == ps.right then Right
    else Straight
  }

  lemma TurnTypeOfPrefabs(ps: PrefabSet, prefab: PlatformPrefab)
    requires Distinct(ps)
    ensures GetTurnType(ps, prefab) == Left <==> prefab == ps.left
    ensures GetTurnType(ps, prefab) == Right <==> prefab == ps.right
    ensures GetTurnType(ps, prefab) == Straight <==> prefab != ps.left && prefab != ps.right
  {
  }

  /** The prototypes `GetDifferentTurnPrefab` chooses among (straight is commented out in the source). */
  function DifferentTurnCandidates(ps: PrefabSet, avoid: TurnType): seq<PlatformPrefab> {
    (if avoid != Left then [ps.left] else []) + (if avoid != Right then [ps.right] else [])
  }

  /** `GetDifferentTurnPrefab`; the draw `Random.Range(0, count)` is the supplied `draw` reduced modulo the count. */
  function GetDifferentTurnPrefab(ps: PrefabSet, avoid: TurnType, draw: nat): (p: PlatformPrefab)
    ensures p == ps.left || p == ps.right
    ensures Distinct(ps) ==> GetTurnType(ps, p) != avoid
  {
    var candidates := DifferentTurnCandidates(ps, avoid);
    if |candidates| == 0 then ps.right else candidates[draw % |candidates|]
  }

  /**
   * The streak rule of `GetNextPlatform`: a turn equal to the last emitted
   * one, after `maxSame` of them in a row, is replaced by a different turn.
   */
  function SelectPrefab(ps: PrefabSet, last: Option<TurnType>, count: int, maxSame: int,
                        chosen: PlatformPrefab, draw: nat): PlatformPrefab
  {
    var turn := GetTurnType(ps, chosen);
    if last.Some? && turn == last.value && turn != Straight && count >= maxSame
    then GetDifferentTurnPrefab(ps, turn, draw)
    else chosen
  }

  /** The streak counter after emitting `turn`. */
  function NextCount(last: Option<TurnType>, count: int, turn: TurnType): int {
    if last == Some(turn) then count + 1 else 1
  }

  /**
   * The streak bound: starting from a streak of at most `maxSame` (at least
   * one), the emitted turn keeps every Left/Right streak at most `maxSame`
   * long. When the choice is one of the two turn prototypes, so is the result.
   */
  lemma {:induction false} StreakBounded(ps: PrefabSet, last: Option<TurnType>, count: int, maxSame: int,
                                         chosen: PlatformPrefab, draw: nat)
    requires Distinct(ps) && maxSame >= 1
    requires chosen == ps.left || chosen == ps.right
    requires last.Some? ==> 1 <= count <= maxSame
    ensures var p := SelectPrefab(ps, last, count, maxSame, chosen, draw);
            && (p == ps.left || p == ps.right)
            && GetTurnType(ps, p) != Straight
            && 1 <= NextCount(last, count, GetTurnType(ps, p)) <= maxSame
  {
    var p := SelectPrefab(ps, last, count, maxSame, chosen, draw);
    TurnTypeOfPrefabs(ps, p);
    TurnTypeOfPrefabs(ps, chosen);
  }

  /**
   * With `maxSame` = 1 every emitted turn differs from the previous one, even
   * when the choice was forced: after a Right, a forced Right comes out Left.
   */
  lemma {:induction false} Alternates(ps: PrefabSet, last: TurnType, chosen: PlatformPrefab, draw: nat)
    requires Distinct(ps) && (chosen == ps.left || chosen == ps.right)
    ensures var p := SelectPrefab(ps, Some(last), 1, 1, chosen, draw);
            GetTurnType(ps, p) != last && GetTurnType(ps, p) != Straight
            && NextCount(Some(last), 1, GetTurnType(ps, p)) == 1
  {
    StreakBounded(ps, Some(last), 1, 1, chosen, draw);
    var p := SelectPrefab(ps, Some(last), 1, 1, chosen, draw);
    TurnTypeOfPrefabs(ps, chosen);
    TurnTypeOfPrefabs(ps, p);
  }

  /** No two neighbours are equal and nothing is Straight. */
  predicate Alternating(ts: seq<TurnType>) {
    && (forall i :: 0 <= i < |ts| ==> ts[i] != Straight)
    && (forall i :: 0 < i < |ts| ==> ts[i] != ts[i - 1])
  }

  /** A request to `GetNextPlatform`: the prototype asked for (forced or drawn) and the draw for a replacement. */
  datatype Request = Request(chosen: PlatformPrefab, draw: nat)

  /**
   * The turns emitted by successive successful `GetNextPlatform` calls,
   * starting from the streak state `last`/`count`.
   */
  function Emitted(ps: PrefabSet, last: Option<TurnType>, count: int, maxSame: int, rs: seq<Request>): (ts: seq<TurnType>)
    ensures |ts| == |rs|
    decreases |rs|
  {
    if rs == [] then []
    else
      var t := GetTurnType(ps, SelectPrefab(ps, last, count, maxSame, rs[0].chosen, rs[0].draw));
      [t] + Emitted(ps, Some(t), NextCount(last, count, t), maxSame, rs[1..])
  }

  /** Only the two turn prototypes are asked for. */
  predicate TurnRequests(ps: PrefabSet, rs: seq<Request>) {
    forall i :: 0 <= i < |rs| ==> rs[i].chosen == ps.left || rs[i].chosen == ps.right
  }

  /**
   * With one turn allowed per streak, the emitted turns alternate strictly,
   * and the first differs from the last turn emitted before, whatever was
   * asked for.
   */
  lemma {:induction false} EmittedAlternate(ps: PrefabSet, last: Option<TurnType>, count: int, rs: seq<Request>)
    requires Distinct(ps) && TurnRequests(ps, rs)
    requires last.Some? ==> count == 1
    ensures Alternating(Emitted(ps, last, count, 1, rs))
    ensures last.Some? && rs != [] ==> Emitted(ps, last, count, 1, rs)[0] != last.value
    decreases |rs|
  {
    if rs != [] {
      var p := SelectPrefab(ps, last, count, 1, rs[0].chosen, rs[0].draw);
      var t := GetTurnType(ps, p);
      StreakBounded(ps, last, count, 1, rs[0].chosen, rs[0].draw);
      if last.Some? {
        Alternates(ps, last.value, rs[0].chosen, rs[0].draw);
      }
      assert TurnRequests(ps, rs[1..]) by {
        forall i | 0 <= i < |rs| - 1 ensures rs[1..][i] == rs[i + 1] { }
      }
      EmittedAlternate(ps, Some(t), NextCount(last, count, t), rs[1..]);
      var rest := Emitted(ps, Some(t), NextCount(last, count, t), 1, rs[1..]);
      assert Emitted(ps, last, count, 1, rs) == [t] + rest;
      forall i | 0 < i < |rest| + 1 ensures ([t] + rest)[i] != ([t] + rest)[i - 1] {
        if i > 1 {
          assert ([t] + rest)[i] == rest[i - 1] && ([t] + rest)[i - 1] == rest[i - 2];
        }
      }
    }
  }

  /**
   * The turns `ts` recorded one platform at a time from the streak's turn
   * `last0`, ending in the streak's current turn `last`: with distinct turn
   * prototypes they alternate, and from a fresh streak they open with the
   * right turn and then the left one.
   */
  predicate Opening(ps: PrefabSet, last0: Option<TurnType>, ts: seq<TurnType>, last: Option<TurnType>) {
    && last == (if ts == [] then last0 else Some(ts[|ts| - 1]))
    && (Distinct(ps) ==> Alternating(ts))
    && (Distinct(ps) && last0.None? ==> (|ts| >= 1 ==> ts[0] == Right) && (|ts| >= 2 ==> ts[1] == Left))
  }

  /**
   * Recording a turn other than the streak's keeps the opening, when the
   * first two are requests for the right turn, each of which gives the right
   * turn unless the streak's turn is already right.
   */
  lemma OpeningStep(ps: PrefabSet, last0: Option<TurnType>, ts: seq<TurnType>, last: Option<TurnType>, turn: TurnType, forcedRight: bool)
    requires Opening(ps, last0, ts, last) && (|ts| < 2 ==> forcedRight)
    requires Distinct(ps) ==> turn != Straight && (last.Some? ==> turn != last.value)
    requires Distinct(ps) && forcedRight ==> turn == (if last == Some(Right) then Left else Right)
    ensures Opening(ps, last0, ts + [turn], Some(turn))
  {
  }

  /** What `Start` asks for first: the right turn twice. The second comes out as a left turn. */
  lemma ForcedRightsAlternate(ps: PrefabSet, d1: nat, d2: nat)
    requires Distinct(ps)
    ensures Emitted(ps, None, 0, 1, [Request(ps.right, d1), Request(ps.right, d2)]) == [Right, Left]
  {
    var rs := [Request(ps.right, d1), Request(ps.right, d2)];
    assert rs[1..] == [Request(ps.right, d2)];
    assert rs[1..][1..] == [];
    TurnTypeOfPrefabs(ps, ps.right);
    var p := GetDifferentTurnPrefab(ps, Right, d2);
    assert DifferentTurnCandidates(ps, Right) == [ps.left];
    TurnTypeOfPrefabs(ps, p);
  }

  /** `PlatformManager.GetPrefabFromInstance`: by name, falling back to the straight prototype. */
  function GetPrefabFromInstance(ps: PrefabSet, instanceName: string): PlatformPrefab {
    var baseName := Names.BaseName(instanceName);
    if baseName == ps.left.name then ps.left
    else if baseName == ps.right.name then ps.right
    else ps.straight
  }

  /** A copy of a turn prototype resolves back to that prototype. */
  lemma PrefabOfClone(ps: PrefabSet, prefab: PlatformPrefab)
    requires Distinct(ps) && (prefab == ps.left || prefab == ps.right)
    ensures GetPrefabFromInstance(ps, Names.CloneName(prefab.name)) == prefab
  {
    Names.BaseNameOfClone(prefab.name);
  }
}
