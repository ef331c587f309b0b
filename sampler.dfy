/**
 * The random draws of the expedition and fortune-wheel routes. Every
 * `Math.random()` value enters as a `Unit` (a real in [0, 1)); what the
 * routes derive from it (a scaled draw, a base quantity, a danger roll) is
 * computed here exactly as the routes compute it.
 */
module Sampler {
  import opened Wrappers

  /** A value of `Math.random()`. */
  type Unit = u: real | 0.0 <= u < 1.0

  /** Running total of the first `n` weights: the value of `cumulativeRate` after `n` steps. */
  function Prefix(weights: seq<real>, n: nat): real
    requires n <= |weights|
  {
    if n == 0 then 0.0 else Prefix(weights, n - 1) + weights[n - 1]
  }

  /** `weights.reduce((sum, w) => sum + w, 0)`. */
  function Total(weights: seq<real>): real {
    Prefix(weights, |weights|)
  }

  /**
   * The cumulative pick: the first index whose running total reaches `x`,
   * or None when the loop runs off the end without a `break`.
   */
  function CumulativePick(weights: seq<real>, x: real): (r: Option<nat>)
    ensures r.Some? ==> r.value < |weights| && x <= Prefix(weights, r.value + 1)
    ensures r.Some? ==> forall j :: 1 <= j <= r.value ==> Prefix(weights, j) < x
    ensures r.None? ==> forall j :: 1 <= j <= |weights| ==> Prefix(weights, j) < x
  {
    PickFrom(weights, x, 0)
  }

  function PickFrom(weights: seq<real>, x: real, i: nat): (r: Option<nat>)
    requires i <= |weights|
    requires forall j :: 1 <= j <= i ==> Prefix(weights, j) < x
    ensures r.Some? ==> i <= r.value < |weights| && x <= Prefix(weights, r.value + 1)
    ensures r.Some? ==> forall j :: 1 <= j <= r.value ==> Prefix(weights, j) < x
    ensures r.None? ==> forall j :: 1 <= j <= |weights| ==> Prefix(weights, j) < x
    decreases |weights| - i
  {
    if i == |weights| then None
    else if x <= Prefix(weights, i + 1) then Some(i)
    else PickFrom(weights, x, i + 1)
  }

  /**
   * The loop of the routes: add each weight to the running total and stop at
   * the first one that reaches `x`.
   */
  method PickIndex(weights: seq<real>, x: real) returns (r: Option<nat>)
    ensures r == CumulativePick(weights, x)
  {
    var cumulative := 0.0;
    var i := 0;
    r := None;
    while i < |weights|
      invariant 0 <= i <= |weights|
      invariant cumulative == Prefix(weights, i)
      invariant forall j :: 1 <= j <= i ==> Prefix(weights, j) < x
      invariant PickFrom(weights, x, i) == CumulativePick(weights, x)
    {
      cumulative := cumulative + weights[i];
      if x <= cumulative {
        r := Some(i);
        return;
      }
      i := i + 1;
    }
  }

  /** The draw `Math.random() * total`. */
  function Scaled(u: Unit, total: real): (x: real)
    ensures total >= 0.0 ==> 0.0 <= x <= total
    ensures total > 0.0 ==> x < total
  {
    ScaleBelow(u, total);
    u * total
  }

  lemma ScaleBelow(u: Unit, total: real)
    ensures total >= 0.0 ==> 0.0 <= u * total <= total
    ensures total > 0.0 ==> u * total < total
  {
    if total > 0.0 {
      assert u * total < 1.0 * total;
    }
  }

  /**
   * With a non-negative total, a draw `u * total` is always picked: the loop
   * never runs off the end.
   */
  lemma {:induction false} PickAlwaysSucceeds(weights: seq<real>, u: Unit)
    requires Total(weights) >= 0.0 && |weights| > 0
    ensures CumulativePick(weights, Scaled(u, Total(weights))).Some?
  {
    var x := Scaled(u, Total(weights));
    assert x <= Prefix(weights, |weights|);
  }

  ghost predicate NonNegative(weights: seq<real>) {
    forall i :: 0 <= i < |weights| ==> weights[i] >= 0.0
  }

  lemma {:induction false} PrefixMonotone(weights: seq<real>, i: nat, j: nat)
    requires NonNegative(weights) && i <= j <= |weights|
    ensures Prefix(weights, i) <= Prefix(weights, j)
    decreases j - i
  {
    if i < j {
      PrefixMonotone(weights, i, j - 1);
    }
  }

  /**
   * With non-negative weights the pick is an interval lookup: index `i` is
   * chosen iff `Prefix(i) < x <= Prefix(i + 1)`, the first interval also
   * taking `x == 0`.
   */
  lemma PickIsInterval(weights: seq<real>, x: real, i: nat)
    requires NonNegative(weights) && i < |weights|
    ensures CumulativePick(weights, x) == Some(i)
      <==> x <= Prefix(weights, i + 1) && (i == 0 || Prefix(weights, i) < x)
  {
    var r := CumulativePick(weights, x);
    if x <= Prefix(weights, i + 1) && (i == 0 || Prefix(weights, i) < x) {
      if r.Some? && r.value < i {
        PrefixMonotone(weights, r.value + 1, i);
      }
    }
  }

  /** Base quantity of a manual mine: `Math.floor(Math.random() * 5) + 2`. */
  function ManualBase(u: Unit): (b: int)
    ensures 2 <= b <= 6
  {
    (u * 5.0).Floor + 2
  }

  /** Base quantity of automatic collection and of each exploration find. */
  function AutoBase(u: Unit): (b: int)
    ensures 1 <= b <= 3
  {
    (u * 3.0).Floor + 1
  }

  /** Number of draws an exploration makes. */
  function ExploreCount(u: Unit): (n: int)
    ensures 2 <= n <= 4
  {
    (u * 3.0).Floor + 2
  }

  /** `Math.max(1, Math.floor(base * (1 / rarity) * multiplier))`. */
  function RarityScaled(base: int, rarity: int, multiplier: real): (q: int)
    requires rarity != 0
    ensures q >= 1
  {
    var scaled := (base as real * (1.0 / rarity as real) * multiplier).Floor;
    if scaled >= 1 then scaled else 1
  }

  /** `quantity += Math.floor(quantity * drone)` when the drone bonus is positive. */
  function DroneBoosted(q: int, drone: real): int {
    if drone > 0.0 then q + (q as real * drone).Floor else q
  }

  /** The quantity a mine or exploration find records. */
  function Quantity(base: int, rarity: int, multiplier: real, drone: real): (q: int)
    requires rarity != 0
    ensures q >= 1
  {
    var q0 := RarityScaled(base, rarity, multiplier);
    DroneStepBounds(q0, drone);
    DroneBoosted(q0, drone)
  }

  /** The drone step never lowers a non-negative quantity and adds at most `drone` times it. */
  lemma DroneStepBounds(q: int, drone: real)
    requires q >= 0
    ensures q <= DroneBoosted(q, drone)
    ensures drone >= 0.0 ==> DroneBoosted(q, drone) as real <= q as real * (1.0 + drone)
  {
    if drone > 0.0 {
      assert 0.0 <= q as real * drone;
    }
  }

  /** The drone step keeps the order of quantities. */
  lemma DroneStepMonotone(q1: int, q2: int, drone: real)
    requires q1 <= q2
    ensures DroneBoosted(q1, drone) <= DroneBoosted(q2, drone)
  {
    if drone > 0.0 {
      var a, b := q1 as real, q2 as real;
      assert a <= b;
      MulMonotone(a, b, drone);
      FloorMonotone(a * drone, b * drone);
    }
  }

  /** Rarer resources (higher rarity code) are never found in larger quantities. */
  lemma RarerIsScarcer(base: int, r1: int, r2: int, multiplier: real, drone: real)
    requires 0 < r1 <= r2 && base >= 0 && multiplier >= 0.0
    ensures Quantity(base, r2, multiplier, drone) <= Quantity(base, r1, multiplier, drone)
  {
    ReciprocalAntitone(r1, r2);
    ScaleMonotone(1.0 / r2 as real, 1.0 / r1 as real, base as real, multiplier);
    FloorMonotone(base as real * (1.0 / r2 as real) * multiplier, base as real * (1.0 / r1 as real) * multiplier);
    DroneStepMonotone(RarityScaled(base, r2, multiplier), RarityScaled(base, r1, multiplier), drone);
  }

  lemma FloorMonotone(a: real, b: real)
    requires a <= b
    ensures a.Floor <= b.Floor
  {
  }

  lemma ReciprocalAntitone(r1: int, r2: int)
    requires 0 < r1 <= r2
    ensures 1.0 / r2 as real <= 1.0 / r1 as real
  {
  }

  lemma ScaleMonotone(a: real, b: real, base: real, m: real)
    requires a <= b && base >= 0.0 && m >= 0.0
    ensures base * a * m <= base * b * m
  {
    MulMonotone(a, b, base);
    assert base * a <= base * b;
    MulMonotone(base * a, base * b, m);
  }

  lemma MulMonotone(a: real, b: real, c: real)
    requires a <= b && c >= 0.0
    ensures a * c <= b * c && c * a <= c * b
  {
  }

  /** `Math.random() < danger_level * 0.05`. */
  predicate DangerOccurs(level: int, roll: Unit) {
    roll < level as real * 0.05
  }

  /** No danger on a level of 0 or below; certain danger from level 20 up; more likely on higher levels. */
  lemma DangerOccursMonotone(l1: int, l2: int, roll: Unit)
    ensures l1 <= 0 ==> !DangerOccurs(l1, roll)
    ensures l1 >= 20 ==> DangerOccurs(l1, roll)
    ensures l1 <= l2 && DangerOccurs(l1, roll) ==> DangerOccurs(l2, roll)
  {
  }

  /** `Math.floor(Math.random() * 5)`: an index into the five danger types. */
  function DangerIndex(u: Unit): (i: nat)
    ensures i < 5
  {
    (u * 5.0).Floor
  }
}
