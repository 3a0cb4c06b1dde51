/** Enemies: the per-archetype stat table, the path cursor that walks an enemy
    along its waypoints, and damage with armour and evasion. */
module Enemies {
  import opened Common
  import opened Pathfinder

  /** `difficulty_multiplier`, applied to every enemy's health. */
  function HealthMultiplier(d: Difficulty): (m: real)
    ensures m >= 1.3
  {
    match d
    case Easy => 1.3
    case Normal => 1.8
    case Hard => 2.5
  }

  /** One row of `enemy_stats`: health is `(health0 + level*healthPerLevel) * multiplier`,
      bounty is `(bounty0 + level*bountyPerLevel) * bountyFactor`. */
  datatype Archetype = Archetype(health0: int, healthPerLevel: int, speed: real,
                                 bounty0: int, bountyPerLevel: int, bountyFactor: real,
                                 armor: real, evasion: real)

  function Table(t: EnemyType): (a: Archetype)
    ensures a.health0 > 0 && a.healthPerLevel > 0 && a.speed > 0.0
    ensures a.bounty0 > 0 && a.bountyPerLevel > 0 && a.bountyFactor > 0.0
    ensures 0.0 <= a.armor < 1.0 && 0.0 <= a.evasion < 1.0
    ensures a.armor != 0.0 <==> t == Tank
    ensures a.evasion != 0.0 <==> t == Ninja
  {
    match t
    case Slime => Archetype(120, 25, 0.9, 12, 2, 0.7, 0.0, 0.0)
    case Orc => Archetype(220, 35, 0.7, 18, 4, 0.8, 0.0, 0.0)
    case Goblin => Archetype(75, 15, 1.4, 14, 2, 0.6, 0.0, 0.0)
    case Skeleton => Archetype(270, 40, 1.0, 25, 5, 0.9, 0.0, 0.0)
    case Knight => Archetype(420, 60, 0.6, 35, 7, 1.0, 0.0, 0.0)
    case Tank => Archetype(500, 80, 0.4, 40, 8, 1.1, 0.3, 0.0)
    case Ninja => Archetype(90, 20, 1.8, 20, 3, 0.9, 0.0, 0.2)
    case BossDragon => Archetype(2200, 250, 0.45, 250, 30, 1.2, 0.0, 0.0)
    case BossGiant => Archetype(3000, 350, 0.35, 300, 35, 1.3, 0.0, 0.0)
    case BossWizard => Archetype(1600, 180, 0.55, 220, 25, 1.1, 0.0, 0.0)
    case BossCyber => Archetype(2800, 300, 0.5, 320, 40, 1.4, 0.0, 0.0)
  }

  function RawHealth(t: EnemyType, level: int, d: Difficulty): real {
    (Table(t).health0 + level * Table(t).healthPerLevel) as real * HealthMultiplier(d)
  }

  /** `int(stats['health'])`: both `health` and `max_health` start here. */
  function Health(t: EnemyType, level: int, d: Difficulty): (h: int)
    ensures level >= 0 ==> h > 0
  {
    TruncBounds(RawHealth(t, level, d));
    Trunc(RawHealth(t, level, d))
  }

  function RawBounty(t: EnemyType, level: int): real {
    (Table(t).bounty0 + level * Table(t).bountyPerLevel) as real * Table(t).bountyFactor
  }

  /** `int(stats['bounty'])`, the money a kill pays. */
  function Bounty(t: EnemyType, level: int): (b: int)
    ensures level >= 0 ==> b >= 0
  {
    TruncBounds(RawBounty(t, level));
    Trunc(RawBounty(t, level))
  }

  /** A stronger wave spawns tougher enemies... */
  lemma HealthGrowsWithLevel(t: EnemyType, d: Difficulty, l1: int, l2: int)
    requires l1 <= l2
    ensures Health(t, l1, d) <= Health(t, l2, d)
  {
    var a := Table(t);
    assert (a.health0 + l1 * a.healthPerLevel) as real <= (a.health0 + l2 * a.healthPerLevel) as real;
    TruncMonotone(RawHealth(t, l1, d), RawHealth(t, l2, d));
  }

  /** ...that pay more. */
  lemma BountyGrowsWithLevel(t: EnemyType, l1: int, l2: int)
    requires l1 <= l2
    ensures Bounty(t, l1) <= Bounty(t, l2)
  {
    var a := Table(t);
    assert (a.bounty0 + l1 * a.bountyPerLevel) as real <= (a.bounty0 + l2 * a.bountyPerLevel) as real;
    TruncMonotone(RawBounty(t, l1), RawBounty(t, l2));
  }

  /** A harder difficulty never spawns a weaker enemy. */
  lemma HarderIsTougher(t: EnemyType, level: int)
    requires level >= 0
    ensures Health(t, level, Easy) <= Health(t, level, Normal) <= Health(t, level, Hard)
  {
    var base := (Table(t).health0 + level * Table(t).healthPerLevel) as real;
    assert base >= 0.0;
    TruncMonotone(RawHealth(t, level, Easy), RawHealth(t, level, Normal));
    TruncMonotone(RawHealth(t, level, Normal), RawHealth(t, level, Hard));
  }

  /** At the same level and difficulty every boss has more health than every
      regular enemy. */
  lemma BossesOutlastRegulars(b: EnemyType, r: EnemyType, level: int, d: Difficulty)
    requires IsBoss(b) && !IsBoss(r) && level >= 0
    ensures Health(b, level, d) > Health(r, level, d)
  {
    var ab, ar := Table(b), Table(r);
    BossFloor(b);
    RegularCeiling(r);
    LevelTermGrows(level, ar.healthPerLevel, ab.healthPerLevel);
    var xb, xr := (ab.health0 + level * ab.healthPerLevel) as real, (ar.health0 + level * ar.healthPerLevel) as real;
    ScaledGap(xb, xr, HealthMultiplier(d));
    TruncBounds(RawHealth(b, level, d));
    TruncBounds(RawHealth(r, level, d));
  }

  /** Every boss starts with at least 1600 health and gains at least 180 a level... */
  lemma BossFloor(b: EnemyType)
    requires IsBoss(b)
    ensures Table(b).health0 >= 1600 && Table(b).healthPerLevel >= 180
  {
  }

  /** ...every regular enemy with at most 500 and 80. */
  lemma RegularCeiling(r: EnemyType)
    requires !IsBoss(r)
    ensures Table(r).health0 <= 500 && Table(r).healthPerLevel <= 80
  {
  }

  lemma LevelTermGrows(level: int, k1: int, k2: int)
    requires level >= 0 && k1 <= k2
    ensures level * k1 <= level * k2
  {
    assert level * k2 - level * k1 == level * (k2 - k1);
  }

  lemma ScaledGap(xb: real, xr: real, m: real)
    requires xb >= xr + 1.0 && m >= 1.0
    ensures xb * m >= xr * m + 1.0
  {
    assert xb * m - xr * m == (xb - xr) * m;
    assert (xb - xr) * m >= 1.0 * m;
  }

  /** The share of a hit that gets through the armour. */
  function Absorbed(damage: real, armor: real): (r: real)
    ensures 0.0 <= armor < 1.0 && damage > 0.0 ==> 0.0 < r <= damage
  {
    damage * (1.0 - armor)
  }

  /** The part of an enemy that `update` and `take_damage` change. */
  datatype Motion = Motion(pathIndex: nat, alive: bool, health: real, pos: Point)

  /** What one `update` does to an enemy in motion state `m` walking `path`
      at `speed`: nothing unless it is alive and has a waypoint left;
      otherwise one step towards that waypoint, or, once within 2 pixels of
      it, the cursor moves to the next one. */
  function Walk(m: Motion, path: seq<Pos>, speed: real, heading: Heading): (r: Motion)
    ensures r.alive == m.alive && r.health == m.health
    ensures m.pathIndex <= r.pathIndex <= m.pathIndex + 1
    ensures !m.alive || m.pathIndex >= |path| ==> r == m
    ensures r.pathIndex == m.pathIndex + 1 ==> r.pos == m.pos
  {
    if m.alive && m.pathIndex < |path| then
      var target := ToPoint(path[m.pathIndex]);
      if DistSq(m.pos, target) > 4.0 then m.(pos := Add(m.pos, heading(m.pos, target, speed)))
      else m.(pathIndex := m.pathIndex + 1)
    else m
  }

  class Enemy {
    const kind: EnemyType
    const path: seq<Pos>
    const level: int
    const difficulty: Difficulty
    const maxHealth: int
    const speed: real
    const bounty: int
    const armor: real
    const evasion: real
    var pathIndex: nat
    var alive: bool
    var health: real
    var pos: Point

    /** The constants are the `enemy_stats` row of `kind` at `level` and
        `difficulty`. Only constants are involved, so this never changes. */
    ghost predicate FromTable() {
      && maxHealth == Health(kind, level, difficulty)
      && bounty == Bounty(kind, level)
      && speed == Table(kind).speed && armor == Table(kind).armor && evasion == Table(kind).evasion
    }

    /** The cursor stays within the path; the consequences of `FromTable`
        that the rest of the game relies on. */
    ghost predicate Valid()
      reads this
    {
      && pathIndex <= |path|
      && 0.0 <= armor < 1.0 && 0.0 <= evasion < 1.0 && speed > 0.0
      && (level >= 0 ==> bounty >= 0 && maxHealth > 0)
    }

    /** A fresh enemy of archetype `kind` at the first waypoint (the sprite
        origin when the path is empty). */
    constructor (kind: EnemyType, path: seq<Pos>, level: int, difficulty: Difficulty)
      ensures Valid() && FromTable()
      ensures this.kind == kind && this.path == path && this.level == level && this.difficulty == difficulty
      ensures pathIndex == 0 && alive && health == maxHealth as real
      ensures pos == if path == [] then Origin else ToPoint(path[0])
    {
      this.kind := kind;
      this.path := path;
      this.level := level;
      this.difficulty := difficulty;
      maxHealth := Health(kind, level, difficulty);
      speed := Table(kind).speed;
      bounty := Bounty(kind, level);
      armor := Table(kind).armor;
      evasion := Table(kind).evasion;
      pathIndex := 0;
      alive := true;
      health := Health(kind, level, difficulty) as real;
      pos := if path == [] then Origin else ToPoint(path[0]);
    }

    function State(): Motion
      reads this
    {
      Motion(pathIndex, alive, health, pos)
    }

    /** `has_reached_end`: the cursor has passed the last waypoint, after
        which `update` never moves the enemy again. */
    predicate HasReachedEnd()
      reads this
      ensures HasReachedEnd() ==> forall h: Heading :: Walk(State(), path, speed, h) == State()
    {
      pathIndex >= |path|
    }

    /** `update`: a live enemy moves `speed` towards its current waypoint
        (`heading` gives the float step of length `speed`) until it is within
        2 pixels, then moves its cursor to the next waypoint. */
    method Update(heading: Heading)
      requires Valid()
      modifies this
      ensures Valid()
      ensures Stepped(this, heading)
    {
      if !alive {
        return;
      }
      if pathIndex < |path| {
        var target := ToPoint(path[pathIndex]);
        if DistSq(pos, target) > 4.0 {
          pos := Add(pos, heading(pos, target, speed));
        } else {
          pathIndex := pathIndex + 1;
        }
      }
    }

    /** `take_damage`: one `random()` roll decides evasion; otherwise the hit,
        reduced by armour, comes off health and the enemy dies at zero. The
        critical flag is handed back unchanged. */
    method TakeDamage(damage: real, isCritical: bool, rng: Rng) returns (died: bool, critical: bool)
      requires Valid()
      modifies this, rng
      ensures Valid()
      ensures critical == isCritical
      ensures rng.drawn == old(rng.drawn) + 1
      ensures Damaged(this, damage, rng.source(old(rng.drawn)), died)
    {
      var roll := rng.Random();
      critical := isCritical;
      if roll < evasion {
        died := false;
        return;
      }
      health := health - Absorbed(damage, armor);
      if health <= 0.0 {
        alive := false;
        died := true;
      } else {
        died := false;
      }
    }
  }

  /** An enemy that was in motion state `m0`: it stands where it stood, on
      the same waypoint, and is alive only if it was. */
  predicate Unmoved(e: Enemy, m0: Motion)
    reads e
  {
    e.pos == m0.pos && e.pathIndex == m0.pathIndex && (e.alive ==> m0.alive)
  }

  /** `update` as a change of state: the enemy's motion is `Walk` of what it was. */
  twostate predicate Stepped(e: Enemy, heading: Heading)
    reads e
  {
    e.State() == Walk(old(e.State()), e.path, e.speed, heading)
  }

  /** What one `take_damage` with roll `roll` does to the health and liveness
      of an enemy that had `health0` and `alive0`: a roll below `evasion`
      changes nothing; otherwise health drops by exactly the absorbed damage
      and the enemy dies once health is no longer positive. */
  predicate HitFrom(e: Enemy, health0: real, alive0: bool, damage: real, roll: real)
    reads e
  {
    if roll < e.evasion then
      e.health == health0 && e.alive == alive0
    else
      e.health == health0 - Absorbed(damage, e.armor) && e.alive == (alive0 && e.health > 0.0)
  }

  /** The same between two states; position and cursor stay where they were. */
  twostate predicate Hurt(e: Enemy, damage: real, roll: real)
    reads e
  {
    && e.pos == old(e.pos) && e.pathIndex == old(e.pathIndex)
    && HitFrom(e, old(e.health), old(e.alive), damage, roll)
  }

  /** `Hurt` on motion states: `now` is what `take_damage` of `damage` with
      roll `roll` makes of enemy `e` in motion state `m0`. */
  predicate Took(e: Enemy, m0: Motion, now: Motion, damage: real, roll: real) {
    && now.pos == m0.pos && now.pathIndex == m0.pathIndex
    && if roll < e.evasion then
         now.health == m0.health && now.alive == m0.alive
       else
         now.health == m0.health - Absorbed(damage, e.armor) && now.alive == (m0.alive && now.health > 0.0)
  }

  /** ... and `died`, its first result, reports exactly a hit that leaves no health. */
  twostate predicate Damaged(e: Enemy, damage: real, roll: real, died: bool)
    reads e
  {
    && Hurt(e, damage, roll)
    && died == (roll >= e.evasion && e.health <= 0.0)
  }

  /** Only the ninja can evade: for every other archetype the roll, a value of
      `random()` in [0, 1), never prevents the hit. */
  lemma OnlyNinjaEvades(t: EnemyType, roll: real)
    requires 0.0 <= roll
    ensures roll < Table(t).evasion ==> t == Ninja
  {
  }

  /** A hit that is not evaded kills exactly when its absorbed damage reaches
      the remaining health; the tank's armour lets 70% through. */
  lemma KillThreshold(health: real, damage: real, t: EnemyType)
    ensures health - Absorbed(damage, Table(t).armor) <= 0.0 <==> Absorbed(damage, Table(t).armor) >= health
    ensures Absorbed(damage, Table(Tank).armor) == damage * 0.7
  {
  }
}
