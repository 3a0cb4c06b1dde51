/** Towers: the per-type stat table, upgrades, target selection (nearest
    enemy for single-shot towers, the stably sorted nearest few for the tesla
    coil), firing with critical hits and rocket salvos, and the tesla
    discharge with its damage falloff. */
module Towers {
  import opened Common
  import opened Enemies
  import opened Projectiles
  import StableSort

  const MaxLevel: int := 4

  /** The part of the constructor table that upgrades start from. */
  datatype BaseStats = BaseStats(damage: int, range: int, fireRate: real, cost: int,
                                 projectileSpeed: real, upgradeCost: int)

  function Base(t: TowerType): (b: BaseStats)
    ensures b.damage > 0 && b.range > 0 && b.fireRate > 0.0 && b.cost > 0 && b.upgradeCost > 0
    ensures b.projectileSpeed > 0.0
  {
    match t
    case Sniper => BaseStats(25, 280, 1.2, 160, 16.0, 80)
    case Artillery => BaseStats(50, 220, 0.8, 320, 9.0, 160)
    case Laser => BaseStats(18, 240, 2.5, 240, 12.0, 120)
    case Rocket => BaseStats(35, 200, 1.5, 280, 7.0, 140)
    case Tesla => BaseStats(12, 180, 3.0, 300, 20.0, 150)
  }

  /** `upgrade_multipliers`, keyed by the level reached. */
  function LevelMultiplier(l: int): (m: real)
    requires 1 <= l <= MaxLevel
    ensures 1.0 <= m <= 3.0
  {
    if l == 1 then 1.0 else if l == 2 then 1.5 else if l == 3 then 2.2 else 3.0
  }

  /** `int(stat * factor)`: an integer stat scaled and truncated. */
  function Scaled(stat: int, factor: real): int {
    Trunc(stat as real * factor)
  }

  function LevelDamage(t: TowerType, l: int): int
    requires 1 <= l <= MaxLevel
  {
    Scaled(Base(t).damage, LevelMultiplier(l))
  }

  function LevelRange(t: TowerType, l: int): int
    requires 1 <= l
  {
    Scaled(Base(t).range, Pow(1.2, l - 1))
  }

  /** `rate * 1.25 ** (l - 1)`: a fire rate raised for level `l`. */
  function RateAt(rate: real, l: int): real
    requires 1 <= l
  {
    rate * Pow(1.25, l - 1)
  }

  function LevelFireRate(t: TowerType, l: int): (r: real)
    requires 1 <= l
    ensures r > 0.0
  {
    RateAt(Base(t).fireRate, l)
  }

  /** `int(upgrade_cost * 1.6)`: the price of the next upgrade after one is bought. */
  function NextUpgradeCost(c: int): int {
    Scaled(c, 1.6)
  }

  /** The upgrade price after `n` upgrades have been applied. */
  function UpgradeCostAfter(t: TowerType, n: nat): int {
    if n == 0 then Base(t).upgradeCost else NextUpgradeCost(UpgradeCostAfter(t, n - 1))
  }

  /** The special-ability fields; a type never has the fields of another type,
      which stay at zero here. */
  datatype Abilities = Abilities(critChance: real, critMultiplier: real,
                                 splashRadius: int, splashDamagePercent: real,
                                 chainTargets: int, missileCount: int, homingStrength: real,
                                 maxTargets: int)

  const NoAbilities := Abilities(0.0, 0.0, 0, 0.0, 0, 0, 0.0, 0)

  /** The ability fields of a tower at level `l` (the constructor's values at level 1). */
  function LevelAbilities(t: TowerType, l: int): Abilities {
    var k := (l - 1) as real;
    match t
    case Sniper => NoAbilities.(critChance := 0.15 + k * 0.05, critMultiplier := 2.0 + k * 0.5)
    case Artillery => NoAbilities.(splashRadius := 60 + (l - 1) * 20, splashDamagePercent := 0.5 + k * 0.1)
    case Laser => NoAbilities.(chainTargets := 3 + (l - 1))
    case Rocket => NoAbilities.(missileCount := 2 + (l - 1), homingStrength := 0.15 + k * 0.05)
    case Tesla => NoAbilities.(maxTargets := 4 + (l - 1) * 2)
  }

  /** What `get_next_upgrade_stats` reports. */
  datatype UpgradeStats = UpgradeStats(damage: int, range: int, fireRate: real, cost: int)

  /** The placement price of the build branch of `on_mouse_press`, its own
      table; it agrees with the constructor's `cost`. */
  function PlacementCost(t: TowerType): (c: int)
    ensures c == Base(t).cost
  {
    match t
    case Sniper => 160
    case Artillery => 320
    case Laser => 240
    case Rocket => 280
    case Tesla => 300
  }

  /** Every upgrade step keeps or raises damage, and strictly raises range
      and fire rate. */
  lemma UpgradeNeverWeakens(t: TowerType, l: int)
    requires 1 <= l < MaxLevel
    ensures LevelDamage(t, l) <= LevelDamage(t, l + 1)
    ensures LevelRange(t, l) < LevelRange(t, l + 1)
    ensures LevelFireRate(t, l) < LevelFireRate(t, l + 1)
  {
    DamageNeverDrops(t, l);
    RangeGrows(t, l);
    FireRateGrows(t, l);
  }

  lemma DamageNeverDrops(t: TowerType, l: int)
    requires 1 <= l < MaxLevel
    ensures LevelDamage(t, l) <= LevelDamage(t, l + 1)
  {
    ScaledMonotone(Base(t).damage, LevelMultiplier(l), LevelMultiplier(l + 1));
  }

  lemma RangeGrows(t: TowerType, l: int)
    requires 1 <= l
    ensures LevelRange(t, l) < LevelRange(t, l + 1)
  {
    var k: nat := l - 1;
    PowAtLeastOne(1.2, k);
    assert Pow(1.2, k + 1) == 1.2 * Pow(1.2, k);
    ScaledGrows(Base(t).range, Pow(1.2, k), 1.2);
  }

  lemma FireRateGrows(t: TowerType, l: int)
    requires 1 <= l
    ensures LevelFireRate(t, l) < LevelFireRate(t, l + 1)
  {
    var k: nat := l - 1;
    PowAtLeastOne(1.25, k);
    assert Pow(1.25, k + 1) == 1.25 * Pow(1.25, k);
    GrowthFactor(Base(t).fireRate, Pow(1.25, k), 1.25);
    assert LevelFireRate(t, l + 1) == Base(t).fireRate * Pow(1.25, k + 1);
  }

  lemma ScaledMonotone(stat: int, f1: real, f2: real)
    requires stat >= 0 && f1 <= f2
    ensures Scaled(stat, f1) <= Scaled(stat, f2)
  {
    assert stat as real * f1 <= stat as real * f2 by {
      assert stat as real * f2 - stat as real * f1 == stat as real * (f2 - f1);
    }
    TruncMonotone(stat as real * f1, stat as real * f2);
  }

  lemma GrowthFactor(x: real, p: real, g: real)
    requires x > 0.0 && p >= 1.0 && g > 1.0
    ensures x * (g * p) == g * (x * p) && x * (g * p) > x * p
  {
    assert x * (g * p) - x * p == x * p * (g - 1.0);
    assert x * p >= x;
  }

  /** A stat of at least 150 scaled by a further 1.2 or more gains at least 30,
      so its truncation strictly grows. */
  lemma ScaledGrows(stat: int, p: real, g: real)
    requires stat >= 150 && p >= 1.0 && g >= 1.2
    ensures Scaled(stat, p) < Scaled(stat, g * p)
  {
    var x := stat as real * p;
    GrowthFactor(stat as real, p, g);
    assert x >= stat as real by {
      assert x - stat as real == stat as real * (p - 1.0);
    }
    var y := g * x;
    assert y - x >= 1.0 by {
      assert y - x == (g - 1.0) * x;
      assert (g - 1.0) * x - 0.2 * x == (g - 1.2) * x;
    }
    TruncGap(x, y);
  }

  /** Reals at least one apart truncate to different integers. */
  lemma TruncGap(x: real, y: real)
    requires 0.0 <= x && x + 1.0 <= y
    ensures Trunc(x) < Trunc(y)
  {
    TruncBounds(x);
    TruncBounds(y);
  }

  /** Upgrades only get dearer. */
  lemma UpgradeCostGrows(t: TowerType, n: nat)
    ensures UpgradeCostAfter(t, n) >= Base(t).upgradeCost
    ensures UpgradeCostAfter(t, n + 1) > UpgradeCostAfter(t, n)
  {
    if n > 0 {
      UpgradeCostGrows(t, n - 1);
    }
    var c := UpgradeCostAfter(t, n);
    assert c as real * 1.6 >= c as real + 1.0;
    TruncBounds(c as real * 1.6);
  }

  // ---------------------------------------------------------------------
  // Target selection
  // ---------------------------------------------------------------------

  /** The liveness test of the target loops: the towers also demand health. */
  predicate Eligible(e: Enemy, checkHealth: bool)
    reads e
  {
    e.alive && (!checkHealth || e.health > 0.0)
  }

  /** A squared distance strictly below an optional squared bound (none: infinity). */
  predicate Below(d: real, bound: Option<real>) {
    bound.None? || d < bound.value
  }

  /** `k` is the enemy the running-minimum loops pick: none when no eligible
      enemy is strictly below the bound, otherwise an eligible one below it, at
      minimal distance, and the first such in list order. */
  ghost predicate IsNearest(from: Point, enemies: seq<Enemy>, bound: Option<real>, checkHealth: bool,
                            k: Option<nat>)
    reads enemies
  {
    match k
    case None =>
      forall i | 0 <= i < |enemies| && Eligible(enemies[i], checkHealth) ::
        !Below(DistSq(from, enemies[i].pos), bound)
    case Some(j) =>
      && j < |enemies| && Eligible(enemies[j], checkHealth)
      && Below(DistSq(from, enemies[j].pos), bound)
      && (forall i | 0 <= i < |enemies| && Eligible(enemies[i], checkHealth) ::
            DistSq(from, enemies[j].pos) <= DistSq(from, enemies[i].pos))
      && (forall i | 0 <= i < j && Eligible(enemies[i], checkHealth) ::
            DistSq(from, enemies[j].pos) < DistSq(from, enemies[i].pos))
  }

  /** The running-minimum loop shared by `find_target` (bound: the range,
      health demanded) and the projectile retarget of `on_update` (bound:
      infinity, liveness only): strict `<`, so the first of equals wins. */
  method Nearest(from: Point, enemies: seq<Enemy>, bound: Option<real>, checkHealth: bool)
    returns (k: Option<nat>)
    ensures IsNearest(from, enemies, bound, checkHealth, k)
  {
    k := None;
    var closest := bound;
    for i := 0 to |enemies|
      invariant IsNearest(from, enemies[..i], bound, checkHealth, k)
      invariant closest == if k.None? then bound else Some(DistSq(from, enemies[k.value].pos))
    {
      var e := enemies[i];
      if Eligible(e, checkHealth) {
        var d := DistSq(from, e.pos);
        if Below(d, closest) {
          k := Some(i);
          closest := Some(d);
        }
      }
    }
    assert enemies[..|enemies|] == enemies;
  }

  /** The candidates of `find_multiple_targets` in list order: each eligible
      enemy within range (inclusive), keyed by its squared distance and
      remembering its position in the list (see `CandidatesExactly`). */
  function Candidates(from: Point, rangeSq: real, enemies: seq<Enemy>): (c: seq<StableSort.Keyed<Enemy>>)
    reads enemies
    ensures StableSort.IndicesIncreasing(c)
    ensures forall x | x in c :: x.index < |enemies| && x.item == enemies[x.index]
  {
    if enemies == [] then []
    else
      var n := |enemies| - 1;
      var e := enemies[n];
      var d := DistSq(from, e.pos);
      var rest := Candidates(from, rangeSq, enemies[..n]);
      rest + (if Eligible(e, true) && d <= rangeSq then [StableSort.Keyed(d, n, e)] else [])
  }

  /** An entry is a candidate exactly when it is an eligible enemy within
      range, keyed by its squared distance, at its place in the list. */
  lemma {:induction false} CandidatesExactly(from: Point, rangeSq: real, enemies: seq<Enemy>, x: StableSort.Keyed<Enemy>)
    ensures x in Candidates(from, rangeSq, enemies) <==>
      && x.index < |enemies| && x.item == enemies[x.index]
      && x.key == DistSq(from, x.item.pos) && Eligible(x.item, true) && x.key <= rangeSq
  {
    if enemies != [] {
      var n := |enemies| - 1;
      CandidatesExactly(from, rangeSq, enemies[..n], x);
      if x.index < n {
        assert enemies[..n][x.index] == enemies[x.index];
      }
    }
  }

  lemma SortedFromList(c: seq<StableSort.Keyed<Enemy>>, enemies: seq<Enemy>)
    requires forall x | x in c :: x.index < |enemies| && x.item == enemies[x.index]
    ensures forall x | x in StableSort.Sort(c) :: x.item in enemies
  {
    forall x | x in StableSort.Sort(c) ensures x.item in enemies {
      StableSort.SortSameEntries(c, x);
    }
  }

  /** `find_multiple_targets`: the in-range enemies sorted stably by distance,
      cut to the first `maxTargets`. */
  function FindMultipleTargets(from: Point, rangeSq: real, maxTargets: nat, enemies: seq<Enemy>): (r: seq<Enemy>)
    reads enemies
    ensures |r| <= maxTargets
    ensures forall i | 0 <= i < |r| :: r[i] in enemies
  {
    var c := Candidates(from, rangeSq, enemies);
    var sorted := StableSort.Sort(c);
    var top := if maxTargets <= |sorted| then sorted[..maxTargets] else sorted;
    SortedFromList(c, enemies);
    StableSort.Items(top)
  }

  /** The chosen targets are the items of the first `maxTargets` sorted candidates. */
  lemma MultipleTargetsPrefix(from: Point, rangeSq: real, maxTargets: nat, enemies: seq<Enemy>)
    ensures var r := FindMultipleTargets(from, rangeSq, maxTargets, enemies);
      var sorted := StableSort.Sort(Candidates(from, rangeSq, enemies));
      && |r| == (if maxTargets <= |sorted| then maxTargets else |sorted|)
      && forall i | 0 <= i < |r| :: r[i] == sorted[i].item
  {
  }

  /** Every chosen target is alive with health and within range. */
  lemma MultipleTargetsInRange(from: Point, rangeSq: real, maxTargets: nat, enemies: seq<Enemy>, i: nat)
    requires i < |FindMultipleTargets(from, rangeSq, maxTargets, enemies)|
    ensures var r := FindMultipleTargets(from, rangeSq, maxTargets, enemies);
      Eligible(r[i], true) && DistSq(from, r[i].pos) <= rangeSq
  {
    var c := Candidates(from, rangeSq, enemies);
    var sorted := StableSort.Sort(c);
    MultipleTargetsPrefix(from, rangeSq, maxTargets, enemies);
    StableSort.SortSameEntries(c, sorted[i]);
    assert sorted[i] in sorted;
    CandidatesExactly(from, rangeSq, enemies, sorted[i]);
  }

  /** The chosen targets come nearest first, equals in list order. */
  lemma MultipleTargetsSorted(from: Point, rangeSq: real, maxTargets: nat, enemies: seq<Enemy>, i: nat, j: nat)
    requires i < j < |FindMultipleTargets(from, rangeSq, maxTargets, enemies)|
    ensures var r := FindMultipleTargets(from, rangeSq, maxTargets, enemies);
      DistSq(from, r[i].pos) <= DistSq(from, r[j].pos)
    ensures var r := FindMultipleTargets(from, rangeSq, maxTargets, enemies);
      DistSq(from, r[i].pos) == DistSq(from, r[j].pos) ==>
        exists a, b | 0 <= a < b < |enemies| :: enemies[a] == r[i] && enemies[b] == r[j]
  {
    var c := Candidates(from, rangeSq, enemies);
    var sorted := StableSort.Sort(c);
    MultipleTargetsPrefix(from, rangeSq, maxTargets, enemies);
    StableSort.SortStable(c);
    assert StableSort.Before(sorted[i], sorted[j]);
    StableSort.SortSameEntries(c, sorted[i]);
    StableSort.SortSameEntries(c, sorted[j]);
    assert sorted[i] in sorted && sorted[j] in sorted;
    CandidatesExactly(from, rangeSq, enemies, sorted[i]);
    CandidatesExactly(from, rangeSq, enemies, sorted[j]);
    var r := FindMultipleTargets(from, rangeSq, maxTargets, enemies);
    if DistSq(from, r[i].pos) == DistSq(from, r[j].pos) {
      var a, b := sorted[i].index, sorted[j].index;
      assert 0 <= a < b < |enemies| && enemies[a] == r[i] && enemies[b] == r[j];
    }
  }

  /** They are the nearest ones: an eligible enemy within range that was not
      chosen is no nearer than any chosen one, and is left out only because
      `maxTargets` were already taken. */
  lemma MultipleTargetsNearest(from: Point, rangeSq: real, maxTargets: nat, enemies: seq<Enemy>, j: nat)
    requires j < |enemies| && Eligible(enemies[j], true) && DistSq(from, enemies[j].pos) <= rangeSq
    ensures var r := FindMultipleTargets(from, rangeSq, maxTargets, enemies);
      enemies[j] in r
      || (|r| == maxTargets && forall i | 0 <= i < |r| :: DistSq(from, r[i].pos) <= DistSq(from, enemies[j].pos))
  {
    var p := SortedPlace(from, rangeSq, enemies, j);
    if p < maxTargets {
      MultipleTargetsPrefix(from, rangeSq, maxTargets, enemies);
      assert FindMultipleTargets(from, rangeSq, maxTargets, enemies)[p] == enemies[j];
    } else {
      BeyondCutNoNearer(from, rangeSq, maxTargets, enemies, p);
    }
  }

  /** An eligible enemy within range has a place among the sorted candidates. */
  lemma SortedPlace(from: Point, rangeSq: real, enemies: seq<Enemy>, j: nat) returns (p: nat)
    requires j < |enemies| && Eligible(enemies[j], true) && DistSq(from, enemies[j].pos) <= rangeSq
    ensures var sorted := StableSort.Sort(Candidates(from, rangeSq, enemies));
      p < |sorted| && sorted[p] == StableSort.Keyed(DistSq(from, enemies[j].pos), j, enemies[j])
  {
    var c := Candidates(from, rangeSq, enemies);
    var x := StableSort.Keyed(DistSq(from, enemies[j].pos), j, enemies[j]);
    CandidatesExactly(from, rangeSq, enemies, x);
    StableSort.SortSameEntries(c, x);
    var sorted := StableSort.Sort(c);
    p :| p < |sorted| && sorted[p] == x;
  }

  /** A candidate sorted at or after the cut is no nearer than any chosen target. */
  lemma BeyondCutNoNearer(from: Point, rangeSq: real, maxTargets: nat, enemies: seq<Enemy>, p: nat)
    requires maxTargets <= p < |StableSort.Sort(Candidates(from, rangeSq, enemies))|
    ensures var r := FindMultipleTargets(from, rangeSq, maxTargets, enemies);
      var sorted := StableSort.Sort(Candidates(from, rangeSq, enemies));
      |r| == maxTargets && forall i | 0 <= i < |r| :: DistSq(from, r[i].pos) <= sorted[p].key
  {
    var c := Candidates(from, rangeSq, enemies);
    var sorted := StableSort.Sort(c);
    var r := FindMultipleTargets(from, rangeSq, maxTargets, enemies);
    MultipleTargetsPrefix(from, rangeSq, maxTargets, enemies);
    StableSort.SortStable(c);
    forall i | 0 <= i < |r| ensures DistSq(from, r[i].pos) <= sorted[p].key {
      StableSort.PrefixSmallest(sorted, maxTargets, i, p);
      StableSort.SortSameEntries(c, sorted[i]);
      assert sorted[i] in sorted;
      CandidatesExactly(from, rangeSq, enemies, sorted[i]);
    }
  }

  /** Over a list without repeats, no enemy is chosen twice. */
  lemma MultipleTargetsDistinct(from: Point, rangeSq: real, maxTargets: nat, enemies: seq<Enemy>)
    requires Pathfinder.Distinct(enemies)
    ensures Pathfinder.Distinct(FindMultipleTargets(from, rangeSq, maxTargets, enemies))
  {
    var c := Candidates(from, rangeSq, enemies);
    var sorted := StableSort.Sort(c);
    var r := FindMultipleTargets(from, rangeSq, maxTargets, enemies);
    StableSort.SortStable(c);
    forall i, j | 0 <= i < j < |r| ensures r[i] != r[j] {
      assert StableSort.Before(sorted[i], sorted[j]);
      StableSort.SortSameEntries(c, sorted[i]);
      StableSort.SortSameEntries(c, sorted[j]);
      assert sorted[i] in sorted && sorted[j] in sorted;
      assert sorted[i].index != sorted[j].index;
    }
  }

  // ---------------------------------------------------------------------
  // The tower
  // ---------------------------------------------------------------------

  class Tower {
    const kind: TowerType
    const pos: Point
    const baseDamage: int
    const baseRange: int
    const baseFireRate: real
    const cost: int
    const projectileSpeed: real
    const damageReduction: real
    var level: int
    var fireTimer: real
    var target: Enemy?
    var damage: int
    var range: int
    var fireRate: real
    var upgradeCost: int
    var critChance: real
    var critMultiplier: real
    var splashRadius: int
    var splashDamagePercent: real
    var chainTargets: int
    var missileCount: int
    var homingStrength: real
    var maxTargets: int
    /** The level whose stats the tower carries (see `Valid`). */
    ghost var statLevel: int
    /** How many times `upgrade` has raised the upgrade price. */
    ghost var upgrades: nat

    function AbilityFields(): Abilities
      reads this`critChance, this`critMultiplier, this`splashRadius, this`splashDamagePercent,
            this`chainTargets, this`missileCount, this`homingStrength, this`maxTargets
    {
      Abilities(critChance, critMultiplier, splashRadius, splashDamagePercent,
                chainTargets, missileCount, homingStrength, maxTargets)
    }

    /** The stats are those of `statLevel`, which is the level itself except
        after a reload that set a level without upgrading to it. */
    /** The constants are the constructor table's row for `kind`. */
    ghost predicate HasBaseStats()
    {
      && baseDamage == Base(kind).damage && baseRange == Base(kind).range
      && baseFireRate == Base(kind).fireRate && cost == Base(kind).cost
      && projectileSpeed == Base(kind).projectileSpeed
      && damageReduction == (if kind == Tesla then 0.8 else 0.0)
    }

    /** Everything `Valid` asks except the three level stats. */
    ghost predicate Shape()
      reads this`level, this`statLevel, this`upgrades, this`upgradeCost, this`critChance, this`critMultiplier,
            this`splashRadius, this`splashDamagePercent, this`chainTargets, this`missileCount,
            this`homingStrength, this`maxTargets
    {
      && level >= 0 && 1 <= statLevel <= MaxLevel && (statLevel == level || statLevel == 1)
      && HasBaseStats()
      && upgradeCost == UpgradeCostAfter(kind, upgrades)
      && AbilityFields() == LevelAbilities(kind, statLevel)
    }

    /** The stats are those of `statLevel`, which is the level itself except
        after a reload that set a level without upgrading to it. */
    ghost predicate Valid()
      reads this`level, this`statLevel, this`upgrades, this`upgradeCost, this`critChance, this`critMultiplier,
            this`splashRadius, this`splashDamagePercent, this`chainTargets, this`missileCount,
            this`homingStrength, this`maxTargets, this`damage, this`range, this`fireRate
    {
      && Shape()
      && damage == LevelDamage(kind, statLevel) && range == LevelRange(kind, statLevel)
      && fireRate == LevelFireRate(kind, statLevel)
    }

    /** The tower after one `upgrade` below the top level: one level up, with
        that level's stats and abilities, the raised price, and its fire
        timer and target as they were. */
    twostate predicate Upgraded()
      reads this
    {
      && Valid()
      && level == old(level) + 1 && statLevel == level && upgrades == old(upgrades) + 1
      && upgradeCost == NextUpgradeCost(old(upgradeCost))
      && fireTimer == old(fireTimer) && target == old(target)
    }

    /** A level-1 tower of `kind` standing at `pos`, with no target. */
    constructor (kind: TowerType, pos: Point)
      ensures Valid() && this.kind == kind && this.pos == pos
      ensures level == 1 && statLevel == 1 && upgrades == 0 && fireTimer == 0.0 && target == null
      ensures damage == Base(kind).damage && range == Base(kind).range && fireRate == Base(kind).fireRate
      ensures upgradeCost == Base(kind).upgradeCost && cost == Base(kind).cost
    {
      var b := Base(kind);
      this.kind := kind;
      this.pos := pos;
      baseDamage, baseRange, baseFireRate := b.damage, b.range, b.fireRate;
      cost, projectileSpeed := b.cost, b.projectileSpeed;
      damageReduction := if kind == Tesla then 0.8 else 0.0;
      level := 1;
      fireTimer := 0.0;
      target := null;
      damage, range, fireRate, upgradeCost := b.damage, b.range, b.fireRate, b.upgradeCost;
      critChance, critMultiplier, splashRadius, splashDamagePercent := 0.0, 0.0, 0, 0.0;
      chainTargets, missileCount, homingStrength, maxTargets := 0, 0, 0.0, 0;
      match kind {
        case Sniper => critChance, critMultiplier := 0.15, 2.0;
        case Artillery => splashRadius, splashDamagePercent := 60, 0.5;
        case Laser => chainTargets := 3;
        case Rocket => missileCount, homingStrength := 2, 0.15;
        case Tesla => maxTargets := 4;
      }
      statLevel, upgrades := 1, 0;
      assert 1.0 * (b.damage as real) == b.damage as real;
    }

    /** `upgrade`: below the top level it raises the level by one, recomputes
        damage, range and fire rate for the new level, raises the upgrade price
        by 60% and returns the NEW price, and sets the ability fields of its own
        type for the new level; at the top level it returns 0 and changes nothing. */
    method Upgrade() returns (newCost: int)
      requires Shape()
      modifies this`level, this`statLevel, this`upgrades, this`upgradeCost,
               this`damage, this`range, this`fireRate,
               this`critChance, this`critMultiplier, this`splashRadius, this`splashDamagePercent,
               this`chainTargets, this`missileCount, this`homingStrength, this`maxTargets
      ensures Shape()
      ensures old(level) >= MaxLevel ==> newCost == 0 && unchanged(this)
      ensures old(level) < MaxLevel ==>
        && Valid()
        && level == old(level) + 1 && statLevel == level && upgrades == old(upgrades) + 1
        && upgradeCost == NextUpgradeCost(old(upgradeCost)) && newCost == upgradeCost
    {
      if level < MaxLevel {
        ghost var previous := statLevel;
        level, statLevel, upgrades := level + 1, level + 1, upgrades + 1;
        upgradeCost := Scaled(upgradeCost, 1.6);
        RaiseStats();
        RaiseAbilities(previous);
        assert upgradeCost == UpgradeCostAfter(kind, upgrades);
        assert Shape();
        return upgradeCost;
      }
      return 0;
    }

    /** `upgrade` below the top level, stated as `Upgraded`. */
    method LevelUp() returns (newCost: int)
      requires Shape() && level < MaxLevel
      modifies this`level, this`statLevel, this`upgrades, this`upgradeCost,
               this`damage, this`range, this`fireRate,
               this`critChance, this`critMultiplier, this`splashRadius, this`splashDamagePercent,
               this`chainTargets, this`missileCount, this`homingStrength, this`maxTargets
      ensures Upgraded() && newCost == upgradeCost
    {
      newCost := Upgrade();
    }

    /** The common part of `upgrade`: damage, range and fire rate for the
        (already raised) level. */
    method RaiseStats()
      requires HasBaseStats() && 1 <= level <= MaxLevel
      modifies this`damage, this`range, this`fireRate
      ensures damage == LevelDamage(kind, level) && range == LevelRange(kind, level)
      ensures fireRate == LevelFireRate(kind, level)
    {
      var multiplier := LevelMultiplier(level);
      damage := Scaled(baseDamage, multiplier);
      range := Scaled(baseRange, Pow(1.2, level - 1));
      fireRate := RateAt(baseFireRate, level);
    }

    /** The type-specific part of `upgrade`: only the fields of the tower's
        own type are set, to their values at the (already raised) level. */
    method RaiseAbilities(ghost previous: int)
      requires AbilityFields() == LevelAbilities(kind, previous)
      modifies this`critChance, this`critMultiplier, this`splashRadius, this`splashDamagePercent,
               this`chainTargets, this`missileCount, this`homingStrength, this`maxTargets
      ensures AbilityFields() == LevelAbilities(kind, level)
    {
      var k := (level - 1) as real;
      match kind {
        case Sniper =>
          critChance := 0.15 + k * 0.05;
          critMultiplier := 2.0 + k * 0.5;
        case Artillery =>
          splashRadius := 60 + (level - 1) * 20;
          splashDamagePercent := 0.5 + k * 0.1;
        case Laser =>
          chainTargets := 3 + (level - 1);
        case Rocket =>
          missileCount := 2 + (level - 1);
          homingStrength := 0.15 + k * 0.05;
        case Tesla =>
          maxTargets := 4 + (level - 1) * 2;
      }
    }

    /** `get_next_upgrade_stats`, from its own multiplier table (`.get(next, 1.0)`):
        nothing at the top level, otherwise exactly the stats and the price the
        following `upgrade` sets and returns. */
    function GetNextUpgradeStats(): (r: Option<UpgradeStats>)
      reads this
      requires level >= 0 && HasBaseStats()
      ensures r.None? <==> level >= MaxLevel
      ensures r.Some? ==>
        && r.value.damage == LevelDamage(kind, level + 1) && r.value.range == LevelRange(kind, level + 1)
        && r.value.fireRate == LevelFireRate(kind, level + 1) && r.value.cost == NextUpgradeCost(upgradeCost)
    {
      if level < MaxLevel then
        var next := level + 1;
        var multiplier := if next == 2 then 1.5 else if next == 3 then 2.2 else if next == 4 then 3.0 else 1.0;
        assert multiplier == LevelMultiplier(next);
        Some(UpgradeStats(
          Scaled(baseDamage, multiplier),
          Scaled(baseRange, Pow(1.2, next - 1)),
          RateAt(baseFireRate, next),
          Scaled(upgradeCost, 1.6)))
      else
        None
    }

    /** `can_attack` when the fire timer reads `timer`: a full firing period
        `1/fire_rate` has elapsed. */
    predicate CanAttack(timer: real)
      reads this`fireRate
      requires fireRate > 0.0
      ensures CanAttack(timer) ==> timer > 0.0
    {
      timer >= 1.0 / fireRate
    }

    /** `find_target`. A tesla coil from level 2 computes its multi-target list
        instead and leaves `target` alone; every other tower takes the nearest
        living enemy with health strictly inside its range, or none. */
    method FindTarget(enemies: seq<Enemy>) returns (ghost k: Option<nat>)
      modifies this`target
      ensures kind == Tesla && level >= 2 ==> target == old(target)
      ensures !(kind == Tesla && level >= 2) ==>
        && IsNearest(pos, enemies, Some(RangeSq()), true, k)
        && target == (if k.None? then null else enemies[k.value])
    {
      k := None;
      if kind == Tesla && level >= 2 {
        return;
      }
      var nearest := Nearest(pos, enemies, Some(RangeSq()), true);
      target := if nearest.None? then null else enemies[nearest.value];
      k := nearest;
    }

    /** How many shots one `attack` fires: a rocket tower from level 2 fires a salvo. */
    function ShotCount(): nat
      reads this`level, this`missileCount
    {
      if kind == Rocket && level >= 2 then (if missileCount > 0 then missileCount else 0) else 1
    }

    /** `create_projectile` without sound and particles. Only a sniper rolls:
        below `crit_chance` the shot is critical and its damage multiplied. */
    method CreateProjectile(rng: Rng, heading: Heading) returns (p: Projectile)
      modifies rng
      ensures fresh(p)
      ensures rng.drawn == old(rng.drawn) + (if kind == Sniper then 1 else 0)
      ensures ShotOf(this, p, if kind == Sniper then Some(rng.source(old(rng.drawn))) else None)
      ensures p.vel == if target != null && target.health > 0.0 then heading(pos, target.pos, projectileSpeed) else Origin
    {
      var actualDamage := damage as real;
      var isCritical := false;
      if kind == Sniper {
        var roll := rng.Random();
        if roll < critChance {
          actualDamage := actualDamage * critMultiplier;
          isCritical := true;
        }
      }
      p := new Projectile(pos, target, actualDamage, projectileSpeed, kind == Rocket,
                          if kind == Artillery then splashRadius else 0, isCritical, heading);
      if kind == Rocket {
        p.homingStrength := homingStrength;
      }
    }

    /** `attack`: one shot, or a salvo of `missile_count` for a rocket tower from level 2. */
    method Attack(rng: Rng, heading: Heading) returns (shots: seq<Projectile>)
      modifies rng
      ensures forall i | 0 <= i < |shots| :: fresh(shots[i])
      ensures Pathfinder.Distinct(shots)
      ensures Salvo(this, shots, rng, old(rng.drawn))
    {
      var n := ShotCount();
      shots := [];
      for i := 0 to n
        invariant |shots| == i
        invariant forall j | 0 <= j < i :: fresh(shots[j])
        invariant Pathfinder.Distinct(shots)
        invariant rng.drawn == old(rng.drawn) + (if kind == Sniper then i else 0)
        invariant forall j | 0 <= j < i ::
                    ShotOf(this, shots[j], if kind == Sniper then Some(rng.source(old(rng.drawn) + j)) else None)
      {
        var p := CreateProjectile(rng, heading);
        shots := shots + [p];
      }
    }

    /** `attack_tesla`: the targets of `find_multiple_targets`, in order, each
        take the damage scaled by `damage_reduction` to the power of their
        place in the list, through `take_damage` with one roll each. A kill is
        not credited here: the corpse stays in the enemy list. */
    method AttackTesla(enemies: seq<Enemy>, rng: Rng) returns (targets: seq<Enemy>)
      requires kind == Tesla && maxTargets >= 0
      requires Pathfinder.Distinct(enemies) && forall e | e in enemies :: e.Valid()
      modifies (set e | e in enemies), rng
      ensures targets == old(FindMultipleTargets(pos, RangeSq(), maxTargets, enemies))
      ensures Discharged(targets, enemies, old(damage) as real, damageReduction, rng)
    {
      targets := FindMultipleTargets(pos, RangeSq(), maxTargets, enemies);
      MultipleTargetsDistinct(pos, RangeSq(), maxTargets, enemies);
      Discharge(targets, enemies, damage as real, damageReduction, rng);
    }

    /** A valid tower fires at a positive rate and hits a non-negative number of targets. */
    lemma ValidBounds()
      requires Valid()
      ensures fireRate > 0.0 && maxTargets >= 0
    {
    }

    /** The squared range: distances are compared squared throughout. */
    function RangeSq(): real
      reads this`range
    {
      range as real * range as real
    }

    /** The retargeting test of `update`: a target is kept while it is alive,
        has health and is within range. */
    predicate KeepsTarget(t: Enemy?)
      reads this`range, t
    {
      t != null && t.alive && t.health > 0.0 && DistSq(pos, t.pos) <= RangeSq()
    }

    /** `update`: the timer advances by `dt`; then a tesla coil discharges
        (`TeslaStep`) and any other tower retargets and fires (`ShooterStep`).
        The new shots are returned; `discharged` are the tesla coil's victims. */
    method Update(dt: real, enemies: seq<Enemy>, rng: Rng, heading: Heading)
      returns (shots: seq<Projectile>, ghost discharged: seq<Enemy>)
      requires Valid()
      requires Pathfinder.Distinct(enemies) && forall e | e in enemies :: e.Valid()
      modifies this`fireTimer, this`target, (set e | e in enemies), rng
      ensures forall e | e in enemies :: e.Valid()
      ensures forall i | 0 <= i < |shots| :: fresh(shots[i])
      ensures Pathfinder.Distinct(shots)
      ensures forall e | e in enemies && e !in discharged :: e.State() == old(e.State())
      ensures forall e | e in enemies :: Unmoved(e, old(e.State()))
      ensures kind == Tesla ==> TeslaStep(this, dt, enemies, rng, shots, discharged)
      ensures kind != Tesla ==> ShooterStep(this, dt, enemies, rng, heading, shots) && discharged == []
    {
      ValidBounds();
      if kind == Tesla {
        shots := [];
        discharged := UpdateTesla(dt, enemies, rng);
      } else {
        shots := UpdateShooter(dt, enemies, rng, heading);
        discharged := [];
      }
    }

    /** The tesla branch of `update`. */
    method UpdateTesla(dt: real, enemies: seq<Enemy>, rng: Rng) returns (discharged: seq<Enemy>)
      requires kind == Tesla && fireRate > 0.0 && maxTargets >= 0
      requires Pathfinder.Distinct(enemies) && forall e | e in enemies :: e.Valid()
      modifies this`fireTimer, (set e | e in enemies), rng
      ensures forall e | e in enemies :: e.Valid()
      ensures forall e | e in enemies && e !in discharged :: e.State() == old(e.State())
      ensures TeslaStep(this, dt, enemies, rng, [], discharged)
    {
      // `fire_timer += dt` followed by `can_attack()`; the timer is written
      // once, after the discharge.
      var elapsed := fireTimer + dt;
      discharged := [];
      if CanAttack(elapsed) {
        discharged := AttackTesla(enemies, rng);
        fireTimer := 0.0;
      } else {
        fireTimer := elapsed;
      }
    }

    /** The branch of `update` for towers that shoot projectiles. */
    method UpdateShooter(dt: real, enemies: seq<Enemy>, rng: Rng, heading: Heading) returns (shots: seq<Projectile>)
      requires kind != Tesla && fireRate > 0.0
      modifies this`fireTimer, this`target, rng
      ensures forall i | 0 <= i < |shots| :: fresh(shots[i])
      ensures Pathfinder.Distinct(shots)
      ensures Retargeted(this, enemies)
      ensures Fired(this, dt, rng, shots)
    {
      // `fire_timer += dt` comes first in the source; retargeting does not
      // read the timer, so the timer is written once, at the end.
      var elapsed := fireTimer + dt;
      shots := [];
      ghost var k := Retarget(enemies);
      if target != null && CanAttack(elapsed) && target.alive && DistSq(pos, target.pos) <= RangeSq() {
        shots := Attack(rng, heading);
        fireTimer := 0.0;
      } else {
        fireTimer := elapsed;
      }
    }

    /** The target step of `update`: keep the target or take `find_target`'s. */
    method Retarget(enemies: seq<Enemy>) returns (ghost k: Option<nat>)
      requires kind != Tesla
      modifies this`target
      ensures Retargeted(this, enemies)
    {
      k := None;
      if target == null || !target.alive || target.health <= 0.0 {
        k := FindTarget(enemies);
      } else if DistSq(pos, target.pos) > RangeSq() {
        k := FindTarget(enemies);
      }
    }
  }

  /** `target` is what `find_target` picks for tower `t`. */
  ghost predicate NearestInRange(t: Tower, enemies: seq<Enemy>, target: Enemy?)
    reads t`range, enemies
  {
    exists k: Option<nat> :: IsNearest(t.pos, enemies, Some(t.RangeSq()), true, k)
                && target == (if k.None? then null else enemies[k.value])
  }

  /** One `update` of the tesla coil: the timer advances by `dt`; when a full
      period has elapsed the coil discharges into `FindMultipleTargets` (each
      hurt with its falloff damage and its own roll) and the timer restarts,
      otherwise nothing else happens. No projectile is fired. */
  twostate predicate TeslaStep(t: Tower, dt: real, enemies: seq<Enemy>, rng: Rng,
                               new shots: seq<Projectile>, new discharged: seq<Enemy>)
    reads t, rng, (set e | e in enemies), (set e | e in discharged)
  {
    var ready := t.fireRate > 0.0 && t.CanAttack(old(t.fireTimer) + dt);
    && shots == [] && t.target == old(t.target)
    && (ready ==>
          && t.fireTimer == 0.0 && old(t.maxTargets) >= 0
          && discharged == old(FindMultipleTargets(t.pos, t.RangeSq(), t.maxTargets, enemies))
          && Discharged(discharged, enemies, t.damage as real, t.damageReduction, rng))
    && (!ready ==> t.fireTimer == old(t.fireTimer) + dt && discharged == [] && rng.drawn == old(rng.drawn))
  }

  /** One `update` of a tower that shoots: it retargets (`Retargeted`) and
      then fires or not (`Fired`). Enemies are not touched. */
  twostate predicate ShooterStep(t: Tower, dt: real, enemies: seq<Enemy>, rng: Rng, heading: Heading,
                                 new shots: seq<Projectile>)
    reads t, rng, enemies, shots
    reads if t.target != null then {t.target} else {}
  {
    Retargeted(t, enemies) && Fired(t, dt, rng, shots)
  }

  /** The target step of `update`: the target is kept while `KeepsTarget`,
      otherwise replaced by the nearest enemy in range, or none. */
  twostate predicate Retargeted(t: Tower, enemies: seq<Enemy>)
    reads t`target, t`range, enemies
  {
    && (old(t.KeepsTarget(t.target)) ==> t.target == old(t.target))
    && (!old(t.KeepsTarget(t.target)) ==> NearestInRange(t, enemies, t.target))
  }

  /** The firing step of `update`: the timer advanced by `dt`; the tower fires
      (`Attack`) exactly when it has a living target within range and a full
      period has elapsed, and then restarts its timer. */
  twostate predicate Fired(t: Tower, dt: real, rng: Rng, new shots: seq<Projectile>)
    reads t, rng, shots
    reads if t.target != null then {t.target} else {}
  {
    var fired := t.target != null && t.target.alive && DistSq(t.pos, t.target.pos) <= t.RangeSq()
                 && t.fireRate > 0.0 && t.CanAttack(old(t.fireTimer) + dt);
    && (fired ==> t.fireTimer == 0.0 && Salvo(t, shots, rng, old(rng.drawn)))
    && (!fired ==> t.fireTimer == old(t.fireTimer) + dt && shots == [] && rng.drawn == old(rng.drawn))
  }

  /** The damage of the tesla coil's `k`-th target: each jump keeps
      `reduction` of the previous one. */
  function Falloff(damage: real, reduction: real, k: nat): real {
    damage * Pow(reduction, k)
  }

  /** The effect of a discharge into `targets`: the `k`-th of them takes
      `Falloff(damage, reduction, k)` through `take_damage`, with the `k`-th
      roll drawn; every other enemy is untouched and all stay valid. */
  twostate predicate Discharged(targets: seq<Enemy>, enemies: seq<Enemy>, damage: real, reduction: real, rng: Rng)
    reads rng, (set e | e in enemies), (set e | e in targets)
  {
    && rng.drawn == old(rng.drawn) + |targets|
    && (forall e | e in enemies :: e.Valid())
    && (forall k | 0 <= k < |targets| :: Hurt(targets[k], Falloff(damage, reduction, k), rng.source(old(rng.drawn) + k)))
    && (forall e | e in enemies && e !in targets :: e.State() == old(e.State()))
    && (forall e | e in enemies :: Unmoved(e, old(e.State())))
  }

  /** The loop of `attack_tesla`: the `k`-th of `targets` takes
      `Falloff(damage, reduction, k)` through `take_damage`, drawing the
      `k`-th roll; nothing else changes. */
  method Discharge(targets: seq<Enemy>, ghost enemies: seq<Enemy>, damage: real, reduction: real, rng: Rng)
    requires Pathfinder.Distinct(targets) && forall e | e in targets :: e in enemies
    requires forall e | e in enemies :: e.Valid()
    modifies (set e | e in targets), rng
    ensures Discharged(targets, enemies, damage, reduction, rng)
  {
    ghost var drawn0 := rng.drawn;
    ghost var dealt := seq(|targets|, (j: nat) => Falloff(damage, reduction, j));
    for k := 0 to |targets|
      invariant rng.drawn == drawn0 + k
      invariant forall e | e in enemies :: e.Valid()
      invariant forall j | 0 <= j < k ::
                  && targets[j].pos == old(targets[j].pos) && targets[j].pathIndex == old(targets[j].pathIndex)
                  && HitFrom(targets[j], old(targets[j].health), old(targets[j].alive), dealt[j], rng.source(drawn0 + j))
      invariant forall j | k <= j < |targets| :: unchanged(targets[j])
      invariant forall e | e in enemies && e !in targets :: e.State() == old(e.State())
      invariant forall e | e in enemies :: Unmoved(e, old(e.State()))
    {
      var t := targets[k];
      var died, _ := t.TakeDamage(Falloff(damage, reduction, k), false, rng);
    }
  }

  /** The shots of one `attack` by `t`: `ShotCount` of them, all `ShotOf` the
      tower, the `i`-th drawing roll `drawn0 + i` when `t` is a sniper (whose
      one shot draws one roll); no other tower draws. */
  ghost predicate Salvo(t: Tower, shots: seq<Projectile>, rng: Rng, drawn0: nat)
    reads t`level, t`missileCount, t`target, t`damage, t`critChance, t`critMultiplier,
          t`splashRadius, t`homingStrength, rng, shots
  {
    && |shots| == t.ShotCount()
    && rng.drawn == drawn0 + (if t.kind == Sniper then 1 else 0)
    && forall i | 0 <= i < |shots| ::
         ShotOf(t, shots[i], if t.kind == Sniper then Some(rng.source(drawn0 + i)) else None)
  }

  /** A shot fired by tower `t`: from the tower at its target, homing exactly
      for rockets (with the tower's homing strength), carrying the splash
      radius exactly for artillery, and critical exactly when the sniper's
      roll fell below its crit chance, in which case its damage is multiplied. */
  ghost predicate ShotOf(t: Tower, p: Projectile, roll: Option<real>)
    reads t`target, t`damage, t`critChance, t`critMultiplier, t`splashRadius, t`homingStrength, p
  {
    var crit := roll.Some? && roll.value < t.critChance;
    && p.pos == t.pos && p.target == t.target && p.speed == t.projectileSpeed
    && p.isCritical == crit
    && p.damage == (if crit then t.damage as real * t.critMultiplier else t.damage as real)
    && p.homing == (t.kind == Rocket)
    && p.aoeRadius == (if t.kind == Artillery then t.splashRadius else 0)
    && p.homingStrength == (if t.kind == Rocket then t.homingStrength else 0.1)
  }

  /** A reloaded tower: `load_save` builds a level-1 tower, overwrites its level
      with the saved one and calls `upgrade` `level - 1` times. */
  function ReloadedLevel(saved: int): int {
    if saved <= 1 || saved >= MaxLevel then saved else if 2 * saved - 1 < MaxLevel then 2 * saved - 1 else MaxLevel
  }
}
