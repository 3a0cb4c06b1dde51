/** Shared vocabulary of the simulation: the archetype enumerations, world
    points, Python's truncating `int()` conversion, powers, and the stream of
    random draws that stands for `random.random()`. */
module Common {

  datatype Option<+T> = None | Some(value: T)

  datatype TowerType = Sniper | Artillery | Laser | Rocket | Tesla

  datatype EnemyType =
    | Slime | Orc | Goblin | Skeleton | Knight | Tank | Ninja
    | BossDragon | BossGiant | BossWizard | BossCyber

  datatype Difficulty = Easy | Normal | Hard

  datatype MapType = Forest | City | Hell | Cyber

  /** The enemy archetypes in the order the wave dictionaries list their keys. */
  const EnemyOrder: seq<EnemyType> :=
    [Slime, Orc, Goblin, Skeleton, Knight, Tank, Ninja,
     BossDragon, BossGiant, BossWizard, BossCyber]

  predicate IsBoss(t: EnemyType) {
    t.BossDragon? || t.BossGiant? || t.BossWizard? || t.BossCyber?
  }

  /** A point in world coordinates (sprite centres, velocities). */
  datatype Point = Point(x: real, y: real)

  const Origin := Point(0.0, 0.0)

  function Add(p: Point, q: Point): Point {
    Point(p.x + q.x, p.y + q.y)
  }

  /** Squared Euclidean distance; every `math.sqrt` comparison of the game is
      made on these instead (both sides are non-negative, so the order is the same). */
  function DistSq(p: Point, q: Point): (d: real)
    ensures d >= 0.0
    ensures d == 0.0 <== p == q
  {
    (p.x - q.x) * (p.x - q.x) + (p.y - q.y) * (p.y - q.y)
  }

  /** The float geometry left abstract: `heading(p, q, speed)` is the vector
      of length `speed` from `p` towards `q` (`dx/d*speed, dy/d*speed`, with
      `d` at least 0.1 for projectiles). */
  type Heading = (Point, Point, real) -> Point

  /** Python's `int(x)` on a float: truncation toward zero. */
  function Trunc(x: real): int {
    if x >= 0.0 then x.Floor else -((-x).Floor)
  }

  /** `Trunc` rounds towards zero. (Kept out of `Trunc`'s own contract, where
      its nonlinear bounds would reach every proof that mentions a truncated
      product.) */
  lemma TruncBounds(x: real)
    ensures x >= 0.0 ==> Trunc(x) as real <= x < Trunc(x) as real + 1.0
    ensures x < 0.0 ==> Trunc(x) as real - 1.0 < x <= Trunc(x) as real
  {
  }

  lemma TruncMonotone(x: real, y: real)
    requires x <= y
    ensures Trunc(x) <= Trunc(y)
  {
    TruncBounds(x);
    TruncBounds(y);
    if x >= 0.0 || y < 0.0 {
    } else {
      assert Trunc(x) <= 0 <= Trunc(y);
    }
  }

  function Pow(b: real, n: nat): (r: real)
    ensures b > 0.0 ==> r > 0.0
  {
    if n == 0 then 1.0 else b * Pow(b, n - 1)
  }

  lemma {:induction false} PowAtLeastOne(b: real, n: nat)
    requires b >= 1.0
    ensures Pow(b, n) >= 1.0
  {
    if n > 0 {
      PowAtLeastOne(b, n - 1);
    }
  }

  lemma {:induction false} PowMonotone(b: real, m: nat, n: nat)
    requires b >= 1.0 && m <= n
    ensures Pow(b, m) <= Pow(b, n)
  {
    if m < n {
      PowMonotone(b, m, n - 1);
      PowAtLeastOne(b, n - 1);
      assert Pow(b, n) == b * Pow(b, n - 1) >= Pow(b, n - 1);
    }
  }

  /** The source of `random.random()` values: a fixed stream read in order.
      Randomness is thereby an input of the model; `drawn` counts the values used. */
  class Rng {
    const source: nat -> real
    var drawn: nat

    constructor (source: nat -> real)
      ensures this.source == source && drawn == 0
    {
      this.source := source;
      drawn := 0;
    }

    /** One call of `random.random()`. */
    method Random() returns (r: real)
      modifies this
      ensures drawn == old(drawn) + 1
      ensures r == source(old(drawn))
    {
      r := source(drawn);
      drawn := drawn + 1;
    }
  }
}
