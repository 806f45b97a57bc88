/**
 * Where obstacles and coins may go on a platform, in the platform's
 * obstacle-container coordinates (x = lane, y = height, z = along the
 * platform), and the reference definitions of the two placement policies:
 * first fit for one obstacle, greedy acceptance for random coins.
 */
module Placement {
  import opened Options
  import opened Geometry
  import opened Turns

  /** A `Random.value` / `Random.Range(a, b)` float draw, as a fraction of the way from `a` to `b`. */
  type Unit = t: real | 0.0 <= t <= 1.0

  /** A `Random.Range(0, 3)` lane draw. */
  type LaneIx = i: int | 0 <= i < 3

  /** One random candidate: a lane and a longitudinal draw. */
  datatype Candidate = Candidate(lane: LaneIx, t: Unit)

  /** Both placement loops give up after this many candidates. */
  const Attempts: nat := 10

  /** `Random.Range(a, b)` for floats, at draw `t`. */
  function Lerp(a: real, b: real, t: Unit): real {
    a + t * (b - a)
  }

  lemma LerpBetween(a: real, b: real, t: Unit)
    requires a <= b
    ensures a <= Lerp(a, b, t) <= b
  {
    var d := b - a;
    assert (1.0 - t) * d >= 0.0;
    assert t * d >= 0.0;
  }

  /** Curved platforms use the narrow lanes, straight ones the wide lanes. */
  function ObstacleLanes(turn: TurnType): (lanes: seq<real>)
    ensures |lanes| == 3
  {
    if turn == Straight then [-2.0, 0.0, 2.0] else [-1.0, 0.0, 1.0]
  }

  /** The longitudinal span: the middle 40% of a curve, everything but one unit at each end of a straight. */
  function ObstacleMinZ(turn: TurnType, length: real): real {
    if turn == Straight then 1.0 else length * 0.3
  }

  function ObstacleMaxZ(turn: TurnType, length: real): real {
    if turn == Straight then length - 1.0 else length * 0.7
  }

  /** The local position a candidate stands for on a platform of this kind and length. */
  function ObstaclePos(turn: TurnType, length: real, c: Candidate): Pos {
    Pos(ObstacleLanes(turn)[c.lane], 0.0, Lerp(ObstacleMinZ(turn, length), ObstacleMaxZ(turn, length), c.t))
  }

  /** An obstacle candidate lies on one of the platform's lanes, at height 0, within the platform's span. */
  lemma ObstaclePosInSpan(turn: TurnType, length: real, c: Candidate)
    requires length >= 0.0 && (turn == Straight ==> length >= 2.0)
    ensures var p := ObstaclePos(turn, length, c);
            && p.x in ObstacleLanes(turn) && p.y == 0.0
            && (turn != Straight ==> 0.3 * length <= p.z <= 0.7 * length)
            && (turn == Straight ==> 1.0 <= p.z <= length - 1.0)
  {
    LerpBetween(ObstacleMinZ(turn, length), ObstacleMaxZ(turn, length), c.t);
  }

  function ObstaclePositions(turn: TurnType, length: real, cs: seq<Candidate>): (ps: seq<Pos>)
    ensures |ps| == |cs|
    ensures forall i :: 0 <= i < |cs| ==> ps[i] == ObstaclePos(turn, length, cs[i])
  {
    seq(|cs|, i requires 0 <= i < |cs| => ObstaclePos(turn, length, cs[i]))
  }

  /** First fit: the first position that is not too close to any occupied one, if there is one. */
  function FirstFree(ps: seq<Pos>, occ: seq<Pos>, min: real): (r: Option<nat>)
    ensures r.Some? ==> r.value < |ps| && !TooClose(ps[r.value], occ, min)
    ensures r.Some? ==> forall j :: 0 <= j < r.value ==> TooClose(ps[j], occ, min)
    ensures r.None? <==> forall j :: 0 <= j < |ps| ==> TooClose(ps[j], occ, min)
  {
    if ps == [] then None
    else if !TooClose(ps[0], occ, min) then Some(0)
    else match FirstFree(ps[1..], occ, min)
         case None => None
         case Some(k) => Some(k + 1)
  }

  /** Coins always use the wide lanes. */
  const CoinLanes: seq<real> := [-2.0, 0.0, 2.0]

  /** The `i`-th coin of a line that starts at `z0` in lane `x`. */
  function LinePos(x: real, height: real, z0: real, spacing: real, i: nat): Pos {
    Pos(x, height, z0 + (i as real) * spacing)
  }

  /** All `n` positions of a coin line, front to back. */
  function LinePositions(x: real, height: real, z0: real, spacing: real, n: nat): (ps: seq<Pos>)
    ensures |ps| == n
    ensures forall i :: 0 <= i < n ==> ps[i] == LinePos(x, height, z0, spacing, i)
  {
    seq(n, i requires 0 <= i < n => LinePos(x, height, z0, spacing, i))
  }

  /**
   * `Random.Range(1, maxCoins + 1)` for integers at the supplied draw: a value
   * from 1 up to `maxCoins` for a positive maximum; 1 for the empty range of a
   * zero maximum; and, with the bounds the other way round, a value above the
   * exclusive bound `maxCoins + 1` and at most 1, which is 0 or less once
   * `maxCoins` is -2 or below.
   */
  function CoinTarget(maxCoins: int, pick: nat): (n: int)
    ensures maxCoins >= 1 ==> 1 <= n <= maxCoins
    ensures maxCoins == 0 ==> n == 1
    ensures maxCoins < 0 ==> maxCoins + 2 <= n <= 1
  {
    if maxCoins >= 1 then 1 + pick % maxCoins
    else if maxCoins == 0 then 1
    else (maxCoins + 2) + pick % (-maxCoins)
  }

  /** Every value of the drawn range is the target for some draw. */
  lemma CoinTargetCovers(maxCoins: int, n: int)
    requires if maxCoins >= 1 then 1 <= n <= maxCoins else if maxCoins == 0 then n == 1 else maxCoins + 2 <= n <= 1
    ensures exists pick: nat :: CoinTarget(maxCoins, pick) == n
  {
    var pick: nat := if maxCoins >= 1 then n - 1 else if maxCoins == 0 then 0 else n - (maxCoins + 2);
    assert CoinTarget(maxCoins, pick) == n;
  }

  /**
   * Greedy acceptance: walk the candidates, accept each one that clears
   * every occupied position (including the ones accepted before it) until
   * `target` have been accepted.
   */
  function Greedy(ps: seq<Pos>, occ: seq<Pos>, min: real, target: int): (g: seq<Pos>)
    decreases |ps|
  {
    if ps == [] || target <= 0 then []
    else if !TooClose(ps[0], occ, min) then [ps[0]] + Greedy(ps[1..], occ + [ps[0]], min, target - 1)
    else Greedy(ps[1..], occ, min, target)
  }

  /** Greedy acceptance from candidate `k` on takes one more step: candidate `k` is accepted exactly when it is clear. */
  lemma GreedyFrom(ps: seq<Pos>, k: nat, occ: seq<Pos>, min: real, target: int)
    requires k < |ps| && target > 0
    ensures Greedy(ps[k..], occ, min, target)
            == if !TooClose(ps[k], occ, min) then [ps[k]] + Greedy(ps[k + 1..], occ + [ps[k]], min, target - 1)
               else Greedy(ps[k + 1..], occ, min, target)
  {
    assert ps[k..][0] == ps[k] && ps[k..][1..] == ps[k + 1..];
  }

  /**
   * A loop doing greedy acceptance is on course at candidate `k`, having
   * accepted `acc` and still aiming for `left`: finishing the greedy walk
   * from there gives the whole answer `all`.
   */
  predicate OnCourse(ps: seq<Pos>, k: nat, occ0: seq<Pos>, acc: seq<Pos>, min: real, left: int, all: seq<Pos>) {
    k <= |ps| && acc + Greedy(ps[k..], occ0 + acc, min, left) == all
  }

  /** One more candidate keeps such a loop on course: accepted when clear, skipped when not. */
  lemma GreedyAdvance(ps: seq<Pos>, k: nat, occ0: seq<Pos>, acc: seq<Pos>, min: real, left: int, all: seq<Pos>, clear: bool)
    requires OnCourse(ps, k, occ0, acc, min, left, all) && k < |ps| && left > 0
    requires clear == !TooClose(ps[k], occ0 + acc, min)
    ensures OnCourse(ps, k + 1, occ0, if clear then acc + [ps[k]] else acc, min, if clear then left - 1 else left, all)
  {
    GreedyFrom(ps, k, occ0 + acc, min, left);
    if clear {
      var rest := Greedy(ps[k + 1..], occ0 + acc + [ps[k]], min, left - 1);
      assert acc + ([ps[k]] + rest) == (acc + [ps[k]]) + rest;
      assert occ0 + acc + [ps[k]] == occ0 + (acc + [ps[k]]);
    }
  }

  /** A greedy loop that has run out of candidates or of coins to place has accepted the whole answer. */
  lemma GreedyDone(ps: seq<Pos>, k: nat, occ0: seq<Pos>, acc: seq<Pos>, min: real, left: int, all: seq<Pos>)
    requires OnCourse(ps, k, occ0, acc, min, left, all) && (k == |ps| || left <= 0)
    ensures acc == all
  {
    assert acc + [] == acc;
  }

  /** The walk starts on course. */
  lemma GreedyStart(ps: seq<Pos>, occ0: seq<Pos>, min: real, target: int)
    ensures OnCourse(ps, 0, occ0, [], min, target, Greedy(ps, occ0, min, target))
  {
    assert ps[0..] == ps && occ0 + [] == occ0;
  }

  /** At most `target` and at most one per candidate are accepted, and every accepted position is a candidate. */
  lemma {:induction false} GreedyBounded(ps: seq<Pos>, occ: seq<Pos>, min: real, target: int)
    ensures |Greedy(ps, occ, min, target)| <= |ps|
    ensures target >= 0 ==> |Greedy(ps, occ, min, target)| <= target
    ensures forall p :: p in Greedy(ps, occ, min, target) ==> p in ps
    decreases |ps|
  {
    if ps != [] && target > 0 {
      if !TooClose(ps[0], occ, min) {
        GreedyBounded(ps[1..], occ + [ps[0]], min, target - 1);
      } else {
        GreedyBounded(ps[1..], occ, min, target);
      }
    }
  }

  /** Each accepted position clears everything occupied at the moment it is accepted. */
  lemma {:induction false} GreedySpaced(ps: seq<Pos>, occ: seq<Pos>, min: real, target: int)
    ensures AcceptedClear(Greedy(ps, occ, min, target), occ, min)
    decreases |ps|
  {
    if ps != [] && target > 0 {
      if !TooClose(ps[0], occ, min) {
        GreedySpaced(ps[1..], occ + [ps[0]], min, target - 1);
        ConsClear(ps[0], Greedy(ps[1..], occ + [ps[0]], min, target - 1), occ, min);
      } else {
        GreedySpaced(ps[1..], occ, min, target);
      }
    }
  }

  /** Every `g[i]` clears `occ` together with the positions accepted before it. */
  predicate AcceptedClear(g: seq<Pos>, occ: seq<Pos>, min: real) {
    forall i :: 0 <= i < |g| ==> !TooClose(g[i], occ + g[..i], min)
  }

  lemma ConsClear(p: Pos, g': seq<Pos>, occ: seq<Pos>, min: real)
    requires !TooClose(p, occ, min) && AcceptedClear(g', occ + [p], min)
    ensures AcceptedClear([p] + g', occ, min)
  {
    var g := [p] + g';
    forall i | 0 <= i < |g| ensures !TooClose(g[i], occ + g[..i], min) {
      GreedyStep(p, g', occ, i);
      if i > 0 {
        assert !TooClose(g'[i - 1], (occ + [p]) + g'[..i - 1], min);
      }
    }
  }

  lemma GreedyStep(p: Pos, g': seq<Pos>, occ: seq<Pos>, i: nat)
    requires i < |g'| + 1
    ensures i == 0 ==> ([p] + g')[i] == p && occ + ([p] + g')[..i] == occ
    ensures i > 0 ==> ([p] + g')[i] == g'[i - 1] && occ + ([p] + g')[..i] == (occ + [p]) + g'[..i - 1]
  {
    if i > 0 {
      assert ([p] + g')[..i] == [p] + g'[..i - 1];
    }
  }

  /** Spacing is kept: an occupancy list that was spaced stays spaced once the accepted positions are appended. */
  lemma GreedyKeepsSpacing(ps: seq<Pos>, occ: seq<Pos>, min: real, target: int)
    requires Spaced(occ, min)
    ensures Spaced(occ + Greedy(ps, occ, min, target), min)
  {
    var g := Greedy(ps, occ, min, target);
    var all := occ + g;
    GreedySpaced(ps, occ, min, target);
    assert AcceptedClear(g, occ, min);
    forall i, j | 0 <= i < j < |all| ensures !Closer(all[j], all[i], min) {
      if j >= |occ| {
        var k := j - |occ|;
        assert all[j] == g[k];
        assert (occ + g[..k])[i] == all[i];
        assert !TooClose(g[k], occ + g[..k], min);
      }
    }
  }
}
