/** One game in progress (the game view): money, lives, score, the wave
    director's state, the enemies, towers and shots on the board, and the
    operations the frame loop and the player's clicks perform on them. */
module Match {
  import opened Common
  import opened Pathfinder
  import opened Enemies
  import opened Projectiles
  import opened Towers
  import opened Waves
  import opened Frame

  function StartingMoney(d: Difficulty): int {
    match d
    case Easy => 300
    case Normal => 220
    case Hard => 180
  }

  function StartingLives(d: Difficulty): int {
    match d
    case Easy => 35
    case Normal => 25
    case Hard => 18
  }

  /** A harder game starts with less money and fewer lives, and every game
      starts with some of both. */
  lemma HarderStartsPoorer()
    ensures StartingMoney(Easy) > StartingMoney(Normal) > StartingMoney(Hard) > 0
    ensures StartingLives(Easy) > StartingLives(Normal) > StartingLives(Hard) > 0
  {
  }

  /** Seconds between a cleared wave and the automatic start of the next. */
  const WaveAutoStartDelay: real := 15.0
  /** Spawn timers of a wave are 1.5 seconds apart. */
  const SpawnInterval: real := 1.5
  /** More shots than this are cut back to the newest `ProjectileKeep`. */
  const ProjectileCap: int := 100
  const ProjectileKeep: int := 80
  /** A click within half a tile of a spot's centre (strictly) hits the spot. */
  const SpotReach: int := TileSize / 2
  /** A tower within 10 pixels on both axes occupies a spot. */
  const OccupiedReach: real := 10.0

  /** A saved tower: the length of its JSON list, its type (none when the
      string names no tower type), its position and its level. */
  datatype TowerEntry = TowerEntry(arity: nat, kind: Option<TowerType>, x: real, y: real, level: int)

  /** The save file, decoded: a missing key is `None`. */
  datatype SaveData = SaveData(money: Option<int>, lives: Option<int>, score: Option<int>, wave: Option<int>,
                               difficulty: Option<Difficulty>, mapType: Option<MapType>,
                               towers: seq<TowerEntry>)

  function OrElse<T>(o: Option<T>, default: T): T {
    if o.Some? then o.value else default
  }

  /** The archetypes of a list of timed spawns. */
  function Types(entries: seq<(real, EnemyType)>): (r: seq<EnemyType>)
    ensures |r| == |entries| && forall i | 0 <= i < |r| :: r[i] == entries[i].1
  {
    if entries == [] then [] else Types(entries[..|entries| - 1]) + [entries[|entries| - 1].1]
  }

  /** The spawn timers `start_wave` sets: the `i`-th archetype at `1.5 * i` seconds. */
  function Timed(order: seq<EnemyType>): (r: seq<(real, EnemyType)>)
    ensures |r| == |order|
    ensures forall i | 0 <= i < |r| :: r[i] == (i as real * SpawnInterval, order[i])
  {
    if order == [] then [] else Timed(order[..|order| - 1]) + [((|order| - 1) as real * SpawnInterval, order[|order| - 1])]
  }

  /** The cap on shots in flight: a list longer than `ProjectileCap` keeps
      only its newest `ProjectileKeep`; the result never exceeds the cap and
      is always a suffix of the list. */
  function Capped<T>(s: seq<T>): (r: seq<T>)
    ensures |r| <= ProjectileCap && |r| <= |s| && r == s[|s| - |r|..]
    ensures |s| <= ProjectileCap <==> r == s
    ensures |s| > ProjectileCap ==> |r| == ProjectileKeep
  {
    if |s| > ProjectileCap then s[|s| - ProjectileKeep..] else s
  }

  predicate Near(s: Pos, x: int, y: int) {
    -SpotReach < x - s.x < SpotReach && -SpotReach < y - s.y < SpotReach
  }

  /** The first spot the click at (x, y) hits. */
  function FirstSpot(spots: seq<Pos>, x: int, y: int): (r: Option<nat>)
    ensures r.None? ==> forall i | 0 <= i < |spots| :: !Near(spots[i], x, y)
    ensures r.Some? ==> r.value < |spots| && Near(spots[r.value], x, y)
                        && forall i | 0 <= i < r.value :: !Near(spots[i], x, y)
  {
    if spots == [] then None
    else if Near(spots[0], x, y) then Some(0)
    else match FirstSpot(spots[1..], x, y)
      case None => None
      case Some(k) => Some(k + 1)
  }

  predicate Occupies(p: Point, s: Pos) {
    -OccupiedReach < p.x - s.x as real < OccupiedReach && -OccupiedReach < p.y - s.y as real < OccupiedReach
  }

  /** Two towers that do not stand on one spot. */
  predicate Apart(p: Point, q: Point) {
    !(-OccupiedReach < p.x - q.x < OccupiedReach && -OccupiedReach < p.y - q.y < OccupiedReach)
  }

  class Match {
    var difficulty: Difficulty
    var mapType: MapType
    var waves: seq<Wave>
    /** How many waves have started. */
    var wave: int
    var waveActive: bool
    var enemiesSpawned: int
    var totalEnemies: int
    var money: int
    var lives: int
    var score: int
    var gameOver: bool
    var victory: bool
    var enemies: seq<Enemy>
    var towers: seq<Tower>
    var projectiles: seq<Projectile>
    var path1: seq<Pos>
    var path2: seq<Pos>
    var towerSpots: seq<Pos>
    var selectedTowerType: TowerType
    var selectedTower: Tower?
    var showUpgradeMenu: bool
    var updateCounter: int
    var waveTimer: real
    var waveStartCountdown: real
    /** Every spawn timer set so far: its delay and the archetype it spawns. */
    var schedule: seq<(real, EnemyType)>

    /** The wave table is well formed, at most `ProjectileCap` shots are in
        flight between frames, no more enemies have spawned than the wave
        holds, and the board's enemies and towers are distinct and valid. */
    ghost predicate Valid()
      reads this, enemies, towers
    {
      Ready() && |projectiles| <= ProjectileCap
    }

    /** `Valid` except the bound on shots, which holds only between frames. */
    ghost predicate Ready()
      reads this, enemies, towers
    {
      && WellFormed(waves)
      && wave >= 0
      && 0 <= enemiesSpawned <= totalEnemies
      && EnemiesReady(enemies)
      && TowersReady(towers)
      && Distinct(projectiles)
      && (selectedTower == null || selectedTower in towers)
    }

    /** A new game: the difficulty's money and lives, the difficulty's waves,
        an empty board. */
    constructor (difficulty: Difficulty, mapType: MapType)
      ensures Valid() && Spread(towers)
      ensures this.difficulty == difficulty && this.mapType == mapType
      ensures money == StartingMoney(difficulty) && lives == StartingLives(difficulty)
      ensures score == 0 && wave == 0 && !waveActive && !gameOver && !victory
      ensures enemies == [] && towers == [] && projectiles == [] && schedule == []
      ensures |waves| == |BaseWaves| && forall i | 0 <= i < |waves| :: ScaledFrom(difficulty, waves[i], BaseWaves[i])
    {
      this.difficulty := difficulty;
      this.mapType := mapType;
      enemies, towers, projectiles, towerSpots := [], [], [], [];
      money := StartingMoney(difficulty);
      lives := StartingLives(difficulty);
      score, wave, waveTimer := 0, 0, 0.0;
      selectedTowerType := Sniper;
      waveActive, enemiesSpawned, totalEnemies := false, 0, 0;
      path1, path2 := [], [];
      selectedTower := null;
      gameOver, victory, showUpgradeMenu := false, false, false;
      updateCounter, waveStartCountdown := 0, 0.0;
      schedule := [];
      new;
      waves := GenerateWaves(difficulty);
      forall i | 0 <= i < |waves| ensures NonNegative(waves[i]) {
        WavesNeverEmpty(difficulty, waves, i);
      }
    }

    /** `load_map`: scan the map of this game and route its paths. Afterwards
        enemies always have a path to walk. */
    method LoadMap(width: int, height: int) returns (layout: Layout)
      requires Valid()
      modifies this`towerSpots, this`path1, this`path2
      ensures Valid()
      ensures towerSpots == layout.scan.towerSpots && path1 == layout.path1 && path2 == layout.path2
      ensures |path1| >= 2 || path1 == old(path1) != []
      ensures mapType != Hell ==> path2 == old(path2)
    {
      layout := LoadMapOf(mapType, width, height, path1, path2);
      towerSpots, path1, path2 := layout.scan.towerSpots, layout.path1, layout.path2;
    }

    /** `start_wave`: unless every wave has started, the next wave becomes
        active: its enemy count is the total of its row, one spawn timer per
        enemy is set, 1.5 seconds apart, in a shuffled order holding each
        archetype exactly as often as the row says, and the wave counter
        advances. `below` supplies the shuffle's draws. */
    method StartWave(below: nat -> nat) returns (order: seq<EnemyType>)
      requires Valid()
      modifies this`waveActive, this`waveStartCountdown, this`totalEnemies, this`enemiesSpawned,
               this`schedule, this`wave
      ensures Valid()
      ensures old(wave) >= |waves| ==> unchanged(this)
      ensures old(wave) < |waves| ==>
        && waveActive && waveStartCountdown == 0.0 && wave == old(wave) + 1
        && totalEnemies == Total(waves[old(wave)]) && enemiesSpawned == 0
        && schedule == old(schedule) + Timed(order)
        && |order| == totalEnemies
        && forall t :: multiset(order)[t] == waves[old(wave)][Index(t)]
    {
      order := [];
      if wave < |waves| {
        var w := waves[wave];
        order := ShuffledRoster(w, below);
        var timers := ScheduleSpawns(order);
        waveActive, waveStartCountdown, totalEnemies, enemiesSpawned := true, 0.0, Total(w), 0;
        schedule, wave := schedule + timers, wave + 1;
      }
    }

    /** The space key, and the wave button while the game is on: start the
        next wave when none is running and one is left. */
    method RequestWave(below: nat -> nat) returns (started: bool)
      requires Valid()
      modifies this`waveActive, this`waveStartCountdown, this`totalEnemies, this`enemiesSpawned,
               this`schedule, this`wave
      ensures Valid()
      ensures started == (!old(waveActive) && old(wave) < |waves|)
      ensures started ==> waveActive && wave == old(wave) + 1 && totalEnemies == Total(waves[old(wave)])
      ensures !started ==> unchanged(this)
    {
      started := !waveActive && wave < |waves|;
      if started {
        var _ := StartWave(below);
      }
    }

    /** The wave button: like the space key, but a lost or won game ignores
        the click. */
    method PressWaveButton(below: nat -> nat) returns (started: bool)
      requires Valid()
      modifies this`waveActive, this`waveStartCountdown, this`totalEnemies, this`enemiesSpawned,
               this`schedule, this`wave
      ensures Valid()
      ensures started == (!(gameOver || victory) && !old(waveActive) && old(wave) < |waves|)
      ensures started ==> waveActive && wave == old(wave) + 1 && totalEnemies == Total(waves[old(wave)])
      ensures !started ==> unchanged(this)
    {
      started := false;
      if gameOver || victory {
        return;
      }
      started := RequestWave(below);
    }

    /** The path a new enemy walks: on the hell map with a second path, the
        coin `firstPath` chooses between the two. */
    function SpawnPath(firstPath: bool): (p: seq<Pos>)
      reads this
      ensures p == path1 || p == path2
      ensures !(mapType == Hell && path2 != []) ==> p == path1
    {
      if mapType == Hell && path2 != [] then (if firstPath then path1 else path2) else path1
    }

    /** `spawn_enemy`: while the wave still owes enemies and the chosen path
        is not empty, one enemy of archetype `kind` at level `wave` joins the
        board at the start of that path and is counted. */
    method SpawnEnemy(kind: EnemyType, firstPath: bool) returns (ghost spawned: bool)
      requires Valid()
      modifies this`enemies, this`enemiesSpawned
      ensures Valid()
      ensures spawned == (old(enemiesSpawned) < totalEnemies && SpawnPath(firstPath) != [])
      ensures !spawned ==> unchanged(this)
      ensures spawned ==>
        && enemiesSpawned == old(enemiesSpawned) + 1 && enemiesSpawned <= totalEnemies
        && |enemies| == |old(enemies)| + 1 && enemies[..|old(enemies)|] == old(enemies)
        && var e := enemies[|enemies| - 1];
           fresh(e) && e.kind == kind && e.path == SpawnPath(firstPath) && e.level == wave
           && e.difficulty == difficulty && e.alive && e.FromTable()
    {
      spawned := false;
      if enemiesSpawned < totalEnemies {
        var path := SpawnPath(firstPath);
        if path != [] {
          var e := new Enemy(kind, path, wave, difficulty);
          enemies := enemies + [e];
          enemiesSpawned := enemiesSpawned + 1;
          spawned := true;
        }
      }
    }

    /** What a click at (x, y) on the board does, from the spot loop on: on
        the first spot it hits, the first tower standing there is selected
        with its menu open, or else a tower of the selected type is built
        there when its price is affordable, paid and selected. A click off
        every spot, or on a free spot that cannot be paid for, changes
        nothing. */
    twostate predicate SpotClicked(x: int, y: int)
      reads this, towers
    {
      var k := FirstSpot(towerSpots, x, y);
      if k.None? then unchanged(this)
      else
        var s := towerSpots[k.value];
        var occupant := FirstOccupant(old(towers), s);
        if occupant.Some? then
          && towers == old(towers) && money == old(money)
          && selectedTower == towers[occupant.value] && showUpgradeMenu
        else if old(money) >= PlacementCost(selectedTowerType) then
          && |towers| == |old(towers)| + 1 && towers[..|old(towers)|] == old(towers)
          && var t := towers[|towers| - 1];
             && fresh(t) && t.kind == selectedTowerType && t.pos == ToPoint(s) && t.level == 1
             && money == old(money) - PlacementCost(selectedTowerType)
             && selectedTower == t && showUpgradeMenu
        else unchanged(this)
    }

    /** A click on the board at (x, y); `inMenu` tells whether it falls inside
        the upgrade menu's rectangle. Once the game is lost or won it does
        nothing; while the menu is open, a click outside it only closes the
        menu; otherwise it is `SpotClicked`. A built tower never shares a
        spot, and money never goes negative. */
    method ClickBoard(x: int, y: int, inMenu: bool)
      requires Valid()
      modifies this`towers, this`money, this`selectedTower, this`showUpgradeMenu
      ensures Valid()
      ensures old(Spread(towers)) ==> Spread(towers)
      ensures old(money) >= 0 ==> money >= 0
      ensures gameOver || victory ==> unchanged(this)
      ensures !(gameOver || victory) && old(showUpgradeMenu) && !inMenu ==>
        && towers == old(towers) && money == old(money) && selectedTower == old(selectedTower)
        && !showUpgradeMenu
      ensures !(gameOver || victory) && !(old(showUpgradeMenu) && !inMenu) ==> SpotClicked(x, y)
    {
      if gameOver || victory {
        return;
      }
      if showUpgradeMenu && !inMenu {
        showUpgradeMenu := false;
        return;
      }
      ClickSpot(x, y);
    }

    /** The spot loop of the click handler, as `SpotClicked` states it. */
    method ClickSpot(x: int, y: int)
      requires Valid()
      modifies this`towers, this`money, this`selectedTower, this`showUpgradeMenu
      ensures Valid()
      ensures old(Spread(towers)) ==> Spread(towers)
      ensures old(money) >= 0 ==> money >= 0
      ensures SpotClicked(x, y)
    {
      var k := FindSpot(towerSpots, x, y);
      if k.None? {
        return;
      }
      var s := towerSpots[k.value];
      var occupant := FindOccupant(towers, s);
      if occupant.Some? {
        selectedTower := towers[occupant.value];
        showUpgradeMenu := true;
      } else if money >= PlacementCost(selectedTowerType) {
        Build(s);
      }
    }

    /** Placing a tower of the selected type on the free spot `s`: the price
        is paid and the new tower is selected, with its menu open. */
    method Build(s: Pos)
      requires Valid() && FirstOccupant(towers, s).None?
      modifies this`towers, this`money, this`selectedTower, this`showUpgradeMenu
      ensures Valid()
      ensures old(Spread(towers)) ==> Spread(towers)
      ensures |towers| == |old(towers)| + 1 && towers[..|old(towers)|] == old(towers)
      ensures var t := towers[|towers| - 1];
        && fresh(t) && t.kind == selectedTowerType && t.pos == ToPoint(s) && t.level == 1
        && money == old(money) - PlacementCost(selectedTowerType)
        && selectedTower == t && showUpgradeMenu
    {
      var t := new Tower(selectedTowerType, ToPoint(s));
      PlacedApart(towers, t, s);
      TowersStay(towers);
      TowersJoin(towers, [t]);
      Seat(t, PlacementCost(selectedTowerType));
    }

    /** A ready tower joins the board at the price `price` and is selected,
        with its menu open. */
    method Seat(t: Tower, price: int)
      requires WellFormed(waves) && wave >= 0 && 0 <= enemiesSpawned <= totalEnemies
      requires EnemiesReady(enemies) && TowersReady(towers + [t])
      requires Distinct(projectiles) && |projectiles| <= ProjectileCap
      modifies this`towers, this`money, this`selectedTower, this`showUpgradeMenu
      ensures Valid()
      ensures towers == old(towers) + [t] && money == old(money) - price
      ensures selectedTower == t && showUpgradeMenu
    {
      towers := towers + [t];
      money := money - price;
      selectedTower := t;
      showUpgradeMenu := true;
    }

    /** The upgrade button, which exists only while the upgrade menu is
        shown: when a tower below the top level is selected and the next
        level's price is affordable, pay it, upgrade the tower and close the
        menu; once the game is lost or won the button does nothing. The price
        paid is the one the menu shows, and money never goes negative. */
    method PurchaseUpgrade() returns (ghost bought: bool)
      requires Valid()
      modifies this`money, this`showUpgradeMenu, this.selectedTower
      ensures Valid()
      ensures old(money) >= 0 ==> money >= 0
      ensures bought == (!(gameOver || victory) && old(showUpgradeMenu)
                         && old(selectedTower) != null && old(selectedTower.level) < MaxLevel
                         && old(money) >= NextUpgradeCost(old(selectedTower.upgradeCost)))
      ensures !bought ==> unchanged(this) && (selectedTower != null ==> unchanged(selectedTower))
      ensures bought ==>
        && money == old(money) - NextUpgradeCost(old(selectedTower.upgradeCost))
        && selectedTower == old(selectedTower) && selectedTower.Upgraded()
        && !showUpgradeMenu
    {
      bought := false;
      if gameOver || victory || !showUpgradeMenu {
        return;
      }
      var t := selectedTower;
      if t != null && t.level < MaxLevel {
        assert t.Valid();
        var next := t.GetNextUpgradeStats();
        if next.Some? && money >= next.value.cost {
          money := money - next.value.cost;
          var _ := t.LevelUp();
          showUpgradeMenu := false;
          bought := true;
        }
      }
    }

    /** A tower-type button: the next tower built will be of type `kind`, and
        the upgrade menu closes; once the game is lost or won it does nothing. */
    method ChooseTowerType(kind: TowerType)
      requires Valid()
      modifies this`selectedTowerType, this`showUpgradeMenu
      ensures Valid()
      ensures gameOver || victory ==> unchanged(this)
      ensures !(gameOver || victory) ==> selectedTowerType == kind && !showUpgradeMenu
    {
      if gameOver || victory {
        return;
      }
      selectedTowerType := kind;
      showUpgradeMenu := false;
    }

    /** `save_game`: the counters, the difficulty, the map and every tower's
        type, position and level. */
    function SaveGame(): (d: SaveData)
      reads this, towers
      ensures |d.towers| == |towers| && Kept(d.towers) == d.towers
    {
      SavedTowersRestorable(towers);
      SaveData(Some(money), Some(lives), Some(score), Some(wave), Some(difficulty), Some(mapType),
               Entries(towers))
    }

    /** `load_save` on a game view: the counters, difficulty and map are read
        back (defaults for missing keys), every well-formed tower entry is
        rebuilt and appended, the map is reloaded. The wave table is not
        regenerated for the loaded difficulty. */
    method LoadSave(data: SaveData, width: int, height: int) returns (ghost restored: seq<Tower>)
      requires Valid()
      requires OrElse(data.wave, 0) >= 0
      requires forall e | e in data.towers && Restorable(e) :: e.level >= 0
      modifies this`money, this`lives, this`score, this`wave, this`difficulty, this`mapType,
               this`towers, this`towerSpots, this`path1, this`path2
      ensures Valid()
      ensures money == OrElse(data.money, StartingMoney(Normal)) && lives == OrElse(data.lives, StartingLives(Normal))
      ensures score == OrElse(data.score, 0) && wave == OrElse(data.wave, 0)
      ensures difficulty == OrElse(data.difficulty, Normal) && mapType == OrElse(data.mapType, Forest)
      ensures waves == old(waves)
      ensures towers == old(towers) + restored
      ensures (forall i | 0 <= i < |restored| :: fresh(restored[i])) && RestoredFrom(restored, Kept(data.towers))
      ensures path1 != []
    {
      ReadCounters(data);
      restored := AddTowers(data.towers);
      var _ := LoadMap(width, height);
    }

    /** The scalar part of `load_save`: counters, difficulty and map, with
        the defaults of a fresh game view for missing keys. */
    method ReadCounters(data: SaveData)
      requires Valid()
      requires OrElse(data.wave, 0) >= 0
      modifies this`money, this`lives, this`score, this`wave, this`difficulty, this`mapType
      ensures Valid()
      ensures money == OrElse(data.money, StartingMoney(Normal)) && lives == OrElse(data.lives, StartingLives(Normal))
      ensures score == OrElse(data.score, 0) && wave == OrElse(data.wave, 0)
      ensures difficulty == OrElse(data.difficulty, Normal) && mapType == OrElse(data.mapType, Forest)
    {
      money := OrElse(data.money, StartingMoney(Normal));
      lives := OrElse(data.lives, StartingLives(Normal));
      score := OrElse(data.score, 0);
      wave := OrElse(data.wave, 0);
      difficulty := OrElse(data.difficulty, Normal);
      mapType := OrElse(data.mapType, Forest);
    }

    /** The tower part of `load_save`: the rebuilt towers join those already
        on the board. */
    method AddTowers(entries: seq<TowerEntry>) returns (restored: seq<Tower>)
      requires Valid()
      requires forall e | e in entries && Restorable(e) :: e.level >= 0
      modifies this`towers
      ensures Valid()
      ensures towers == old(towers) + restored
      ensures (forall i | 0 <= i < |restored| :: fresh(restored[i])) && RestoredFrom(restored, Kept(entries))
    {
      restored := RestoreTowers(entries);
      TowersJoin(towers, restored);
      towers := towers + restored;
    }

    /** No wave is running, the last one has spawned in full, the board is
        empty and a wave is left: the auto-start countdown runs. */
    predicate Idle()
      reads this
    {
      !waveActive && enemiesSpawned >= totalEnemies && |enemies| == 0 && wave < |waves|
    }

    /** The escape loop of `on_update` (see `EscapePass`): every enemy the
        iterator reaches walks one step, one that reaches the end of its path
        costs `BaseDamage` lives and leaves the list, and the game is lost
        once the lives are down to zero. */
    method Escape(heading: Heading) returns (ghost fate: seq<Fate>)
      requires Ready()
      modifies this`enemies, this`lives, this`gameOver, set e | e in enemies
      ensures Ready()
      ensures |fate| == |old(enemies)| && Paced(fate)
      ensures enemies == Survivors(old(enemies), fate, |fate|)
      ensures forall e | e in enemies :: e in old(enemies)
      ensures forall k | 0 <= k < |fate| :: VisitedFrom(old(enemies)[k], old(enemies[k].State()), fate[k], heading)
      ensures lives == old(lives) - BaseDamage * (|old(enemies)| - |enemies|) <= old(lives)
      ensures gameOver == (old(gameOver) || (|enemies| < |old(enemies)| && lives <= 0))
    {
      var e0 := enemies;
      var kept, left, over;
      kept, left, over, fate := EscapePass(e0, lives, gameOver, heading);
      TowersStay(towers);
      Survive(kept, left, over);
    }

    /** The board after the escape pass: its enemies, lives and loss, with
        everything else as it was. */
    method Survive(kept: seq<Enemy>, left: int, over: bool)
      requires WellFormed(waves) && wave >= 0 && 0 <= enemiesSpawned <= totalEnemies
      requires EnemiesReady(kept) && TowersReady(towers) && Distinct(projectiles)
      requires selectedTower == null || selectedTower in towers
      modifies this`enemies, this`lives, this`gameOver
      ensures Ready() && enemies == kept && lives == left && gameOver == over
    {
      enemies, lives, gameOver := kept, left, over;
    }

    /** The tower loop of `on_update`: the frame counter advances, and the
        towers update (every second frame, and every frame while fewer than
        20 enemies are on the board; see `TowerPass`) or only advance their
        fire timers. New shots are appended to the shot list. Only tesla
        coils touch enemies, each at most `maxTargets` of them. */
    method TowerStep(dt: real, rng: Rng, heading: Heading)
      returns (active: bool, ghost salvos: seq<seq<Projectile>>, ghost discharged: seq<seq<Enemy>>)
      requires Ready()
      modifies this`updateCounter, this`projectiles
      modifies (set t | t in towers)`fireTimer, (set t | t in towers)`target, (set e | e in enemies), rng
      ensures Ready()
      ensures updateCounter == old(updateCounter) + 1
      ensures active == (updateCounter % 2 == 0 || |enemies| < 20)
      ensures |salvos| == |towers| && projectiles == old(projectiles) + Concat(salvos)
      ensures forall p | p in projectiles :: p in old(projectiles) || fresh(p)
      ensures forall k | 0 <= k < |towers| ::
                Clocked(towers[k], old(towers[k].fireTimer), old(towers[k].target), dt, salvos[k], active)
      ensures forall e | e in enemies :: Unmoved(e, old(e.State()))
      ensures !active ==> projectiles == old(projectiles) && rng.drawn == old(rng.drawn)
      ensures Discharges(towers, enemies, discharged)
      ensures forall e | e in enemies && Spared(e, discharged) :: e.State() == old(e.State())
    {
      updateCounter := updateCounter + 1;
      active := updateCounter % 2 == 0 || |enemies| < 20;
      var ts, es := towers, enemies;
      var shots;
      shots, salvos, discharged := TowerPass(ts, es, projectiles, active, dt, rng, heading);
      Reload(shots);
    }

    /** The board after a tower pass: its shots, with everything else as it
        was. */
    method Reload(shots: seq<Projectile>)
      requires WellFormed(waves) && wave >= 0 && 0 <= enemiesSpawned <= totalEnemies
      requires EnemiesReady(enemies) && TowersReady(towers) && Distinct(shots)
      requires selectedTower == null || selectedTower in towers
      modifies this`projectiles
      ensures Ready() && projectiles == shots
    {
      projectiles := shots;
    }

    /** The projectile loop of `on_update` (see `ProjectilePass`): the shots
        that strike leave the list, the enemies they kill leave the board,
        and each kill pays its bounty and scores ten times as much. */
    method ProjectileStep(rng: Rng, turn: Turn, heading: Heading, collides: Collides)
      returns (ghost struck: seq<bool>, ghost killed: seq<bool>)
      requires Ready()
      modifies this`projectiles, this`enemies, this`money, this`score
      modifies (set p | p in projectiles), (set e | e in enemies), rng
      ensures Ready()
      ensures |struck| == |old(projectiles)| && projectiles == Remaining(old(projectiles), struck)
      ensures |killed| == |old(enemies)| && enemies == Remaining(old(enemies), killed)
      ensures forall e | e in enemies :: e in old(enemies)
      ensures forall k | 0 <= k < |killed| ::
                && killed[k] == (old(enemies[k].alive) && !old(enemies)[k].alive)
                && Unmoved(old(enemies)[k], old(enemies[k].State()))
      ensures money == old(money) + Bounties(old(enemies), killed) && money >= old(money)
      ensures score - old(score) == 10 * (money - old(money))
      ensures forall j, k | 0 <= j < |struck| && 0 <= k < |killed| && !struck[j] && !killed[k] ::
                !collides(old(projectiles)[j].pos, old(enemies)[k].kind, old(enemies)[k].pos)
    {
      var p0, e0 := projectiles, enemies;
      var kept, left, earned, scored;
      kept, left, earned, scored, struck, killed := ProjectilePass(p0, e0, money, score, rng, turn, heading, collides);
      TowersStay(towers);
      Adopt(kept, left, earned, scored);
    }

    /** The board after a projectile pass: its shots, enemies, money and
        score, with everything else as it was. */
    method Adopt(kept: seq<Projectile>, left: seq<Enemy>, earned: int, scored: int)
      requires WellFormed(waves) && wave >= 0 && 0 <= enemiesSpawned <= totalEnemies
      requires EnemiesReady(left) && TowersReady(towers) && Distinct(kept)
      requires selectedTower == null || selectedTower in towers
      modifies this`projectiles, this`enemies, this`money, this`score
      ensures Ready()
      ensures projectiles == kept && enemies == left && money == earned && score == scored
    {
      projectiles, enemies, money, score := kept, left, earned, scored;
    }

    /** The cap on shots in flight: over `ProjectileCap`, only the newest
        `ProjectileKeep` stay. */
    method CapProjectiles()
      requires Ready()
      modifies this`projectiles
      ensures Valid()
      ensures projectiles == Capped(old(projectiles))
    {
      if |projectiles| > ProjectileCap {
        projectiles := projectiles[|projectiles| - ProjectileKeep..];
      }
    }

    /** The auto-start countdown of `on_update`: while the board is `Idle` a
        countdown at zero or below is set to `WaveAutoStartDelay`, otherwise
        it runs down by `dt` and starts the next wave when it expires; when
        the board is not idle the countdown is reset to zero. */
    method AutoWave(dt: real, below: nat -> nat)
      requires Valid()
      modifies this`waveActive, this`waveStartCountdown, this`totalEnemies, this`enemiesSpawned,
               this`schedule, this`wave
      ensures Valid()
      ensures wave != old(wave) <==> old(Idle()) && 0.0 < old(waveStartCountdown) <= dt
      ensures wave == old(wave) ==>
        && waveActive == old(waveActive) && schedule == old(schedule)
        && totalEnemies == old(totalEnemies) && enemiesSpawned == old(enemiesSpawned)
        && waveStartCountdown == (if !old(Idle()) then 0.0
                                  else if old(waveStartCountdown) <= 0.0 then WaveAutoStartDelay
                                  else old(waveStartCountdown) - dt)
      ensures wave != old(wave) ==>
        && waveActive && wave == old(wave) + 1 && waveStartCountdown == 0.0
        && totalEnemies == Total(waves[old(wave)]) && enemiesSpawned == 0
    {
      if Idle() {
        if waveStartCountdown <= 0.0 {
          waveStartCountdown := WaveAutoStartDelay;
        } else {
          waveStartCountdown := waveStartCountdown - dt;
          if waveStartCountdown <= 0.0 {
            var _ := StartWave(below);
          }
        }
      } else {
        waveStartCountdown := 0.0;
      }
    }

    /** The end of `on_update`: a running wave whose enemies have all spawned
        and left the board is over (counters and wave timer back to zero),
        and when it was the last wave the game is won; between waves, while
        one is left, the wave timer runs. */
    method WaveEnd(dt: real)
      requires Valid()
      modifies this`waveActive, this`waveTimer, this`enemiesSpawned, this`totalEnemies, this`victory
      ensures Valid()
      ensures var cleared := old(|enemies| == 0 && enemiesSpawned >= totalEnemies && waveActive);
        && waveActive == (old(waveActive) && !cleared)
        && (cleared ==> enemiesSpawned == 0 && totalEnemies == 0)
        && (!cleared ==> enemiesSpawned == old(enemiesSpawned) && totalEnemies == old(totalEnemies))
        && victory == (old(victory) || (cleared && wave >= |waves|))
        && waveTimer == (if cleared then 0.0 else old(waveTimer)) + (if !waveActive && wave < |waves| then dt else 0.0)
    {
      if |enemies| == 0 && enemiesSpawned >= totalEnemies && waveActive {
        waveActive := false;
        waveTimer := 0.0;
        enemiesSpawned := 0;
        totalEnemies := 0;
        if wave >= |waves| {
          victory := true;
        }
      }
      if !waveActive && wave < |waves| {
        waveTimer := waveTimer + dt;
      }
    }

    /** The tower loop and the projectile loop of `on_update`: money is only
        earned, at ten points per coin. */
    method Fire(dt: real, rng: Rng, heading: Heading, turn: Turn, collides: Collides)
      requires Ready()
      modifies this`enemies, this`updateCounter, this`projectiles, this`money, this`score
      modifies (set e | e in enemies), (set t | t in towers)`fireTimer, (set t | t in towers)`target
      modifies (set p | p in projectiles), rng
      ensures Ready()
      ensures money >= old(money) && score - old(score) == 10 * (money - old(money))
    {
      ghost var money1, score1 := money, score;
      var active, salvos, discharged := TowerStep(dt, rng, heading);
      assert money == money1 && score == score1;
      ghost var struck, killed := ProjectileStep(rng, turn, heading, collides);
    }

    /** The escape loop, the tower loop and the projectile loop of
        `on_update`: lives are only lost, money only earned, at ten points
        per coin, and a lost game stays lost. */
    method Combat(dt: real, rng: Rng, heading: Heading, turn: Turn, collides: Collides)
      requires Ready()
      modifies this`enemies, this`lives, this`gameOver, this`updateCounter, this`projectiles, this`money, this`score
      modifies (set e | e in enemies), (set t | t in towers)`fireTimer, (set t | t in towers)`target
      modifies (set p | p in projectiles), rng
      ensures Ready()
      ensures lives <= old(lives) && money >= old(money) && score - old(score) == 10 * (money - old(money))
      ensures old(gameOver) ==> gameOver
    {
      ghost var fate := Escape(heading);
      Fire(dt, rng, heading, turn, collides);
    }

    /** `on_update`: nothing once the game is lost or won; otherwise the
        escape loop, the tower loop, the projectile loop, the cap on shots,
        the auto-start countdown and the end of wave, in this order. A frozen
        game changes no enemy, tower, shot or random draw. A frame
        never adds lives, never spends money, scores ten points per coin it
        earns, and a frame that wins the game leaves every wave started and
        the board empty. */
    method Tick(dt: real, rng: Rng, heading: Heading, turn: Turn, collides: Collides, below: nat -> nat)
      requires Valid()
      modifies this, (set e | e in enemies), (set t | t in towers), (set p | p in projectiles), rng
      ensures Valid()
      ensures old(gameOver || victory) ==>
        && unchanged(this) && unchanged(rng)
        && unchanged(set e | e in enemies) && unchanged(set t | t in towers) && unchanged(set p | p in projectiles)
      ensures towers == old(towers) && lives <= old(lives)
      ensures money >= old(money) && score - old(score) == 10 * (money - old(money))
      ensures old(gameOver) ==> gameOver
      ensures old(victory) ==> victory
      ensures victory && !old(victory) ==> wave >= |waves| && enemies == []
    {
      if gameOver || victory {
        return;
      }
      Combat(dt, rng, heading, turn, collides);
      CapProjectiles();
      Pace(dt, below);
    }

    /** The wave bookkeeping at the end of `on_update`: the auto-start
        countdown, then the end of wave. A won game stays won, and a frame
        that wins it leaves every wave started and the board empty. */
    method Pace(dt: real, below: nat -> nat)
      requires Valid()
      modifies this`waveActive, this`waveStartCountdown, this`totalEnemies, this`enemiesSpawned,
               this`schedule, this`wave, this`waveTimer, this`victory
      ensures Valid()
      ensures old(victory) ==> victory
      ensures victory && !old(victory) ==> wave >= |waves| && enemies == []
    {
      AutoWave(dt, below);
      WaveEnd(dt);
    }
  }

  /** Every wave counts each archetype, none negatively. */
  ghost predicate WellFormed(waves: seq<Wave>) {
    forall i | 0 <= i < |waves| :: |waves[i]| == |EnemyOrder| && NonNegative(waves[i])
  }

  /** Towers nobody touched are as ready as they were. */
  twostate lemma TowersStay(towers: seq<Tower>)
    requires old(TowersReady(towers)) && unchanged(set t | t in towers)
    ensures TowersReady(towers)
  {
  }

  /** Two boards of towers with no tower in common make one. */
  lemma TowersJoin(a: seq<Tower>, b: seq<Tower>)
    requires TowersReady(a) && TowersReady(b)
    requires forall i, j | 0 <= i < |a| && 0 <= j < |b| :: a[i] != b[j]
    ensures TowersReady(a + b)
  {
    var c := a + b;
    forall i, j | 0 <= i < j < |c| ensures c[i] != c[j] {
      if j < |a| {
      } else if i >= |a| {
        assert c[i] == b[i - |a|] && c[j] == b[j - |a|];
      } else {
        assert c[j] == b[j - |a|];
      }
    }
  }

  /** No two towers stand on the same spot. */
  predicate Spread(towers: seq<Tower>) {
    forall i, j | 0 <= i < j < |towers| :: Apart(towers[i].pos, towers[j].pos)
  }

  /** A tower built on a spot no tower occupies keeps the towers apart. */
  lemma PlacedApart(towers: seq<Tower>, t: Tower, s: Pos)
    requires FirstOccupant(towers, s).None? && t.pos == ToPoint(s)
    ensures Spread(towers) ==> Spread(towers + [t])
  {
  }

  /** The spot loop of the click handler: the first spot within reach. */
  method FindSpot(spots: seq<Pos>, x: int, y: int) returns (k: Option<nat>)
    ensures k == FirstSpot(spots, x, y)
  {
    for i := 0 to |spots|
      invariant forall j | 0 <= j < i :: !Near(spots[j], x, y)
    {
      if Near(spots[i], x, y) {
        return Some(i);
      }
    }
    return None;
  }

  /** The occupancy loop of the click handler: the first tower within 10
      pixels of spot `s` on both axes. */
  method FindOccupant(towers: seq<Tower>, s: Pos) returns (k: Option<nat>)
    ensures k == FirstOccupant(towers, s)
  {
    for i := 0 to |towers|
      invariant forall j | 0 <= j < i :: !Occupies(towers[j].pos, s)
    {
      if Occupies(towers[i].pos, s) {
        return Some(i);
      }
    }
    return None;
  }

  /** The first half of `start_wave`: the roster of wave `w`, shuffled. It
      holds each archetype exactly as often as the wave's row says. */
  method ShuffledRoster(w: Wave, below: nat -> nat) returns (order: seq<EnemyType>)
    requires |w| == |EnemyOrder| && NonNegative(w)
    ensures |order| == Total(w)
    ensures forall t :: multiset(order)[t] == w[Index(t)]
  {
    var types := BuildRoster(w);
    RosterSize(w);
    var a := new EnemyType[|types|](i requires 0 <= i < |types| => types[i]);
    assert a[..] == types;
    Shuffle(a, below);
    order := a[..];
    forall t ensures multiset(order)[t] == w[Index(t)] {
      RosterCounts(w, t);
    }
  }

  /** The second half of `start_wave`: one spawn timer per roster entry. */
  method ScheduleSpawns(order: seq<EnemyType>) returns (timers: seq<(real, EnemyType)>)
    ensures timers == Timed(order)
  {
    timers := [];
    for i := 0 to |order|
      invariant timers == Timed(order[..i])
    {
      assert order[..i + 1][..i] == order[..i];
      timers := timers + [(i as real * SpawnInterval, order[i])];
    }
    assert order[..|order|] == order;
  }

  /** Tower `t` is the reload of entry `e`. */
  ghost predicate RestoredAs(t: Tower, e: TowerEntry)
    reads t`level
  {
    Some(t.kind) == e.kind && t.pos == Point(e.x, e.y) && t.level == ReloadedLevel(e.level)
  }

  /** The reloaded towers correspond one to one, in order, to the entries. */
  ghost predicate RestoredFrom(restored: seq<Tower>, kept: seq<TowerEntry>)
    reads restored
  {
    |restored| == |kept| && forall i | 0 <= i < |kept| :: RestoredAs(restored[i], kept[i]) && restored[i].Valid()
  }

  /** The tower loop of `load_save`: entries of four fields with a known
      tower type are rebuilt, in order; the others are skipped. */
  method RestoreTowers(entries: seq<TowerEntry>) returns (restored: seq<Tower>)
    requires forall e | e in entries && Restorable(e) :: e.level >= 0
    ensures forall i | 0 <= i < |restored| :: fresh(restored[i])
    ensures TowersReady(restored)
    ensures RestoredFrom(restored, Kept(entries))
  {
    restored := [];
    for i := 0 to |entries|
      invariant forall m | 0 <= m < |restored| :: fresh(restored[m])
      invariant TowersReady(restored)
      invariant RestoredFrom(restored, Kept(entries[..i]))
    {
      var entry := entries[i];
      assert entries[..i + 1] == entries[..i] + [entry];
      KeptAppend(entries[..i], entry);
      if entry.arity == 4 && entry.kind.Some? {
        assert entry in entries;
        var t := RestoreTower(entry.kind.value, Point(entry.x, entry.y), entry.level);
        ReadyAppend(restored, t);
        restored := restored + [t];
      }
    }
    assert entries[..|entries|] == entries;
  }

  /** A valid tower not yet on a board of ready towers joins it ready. */
  lemma ReadyAppend(towers: seq<Tower>, t: Tower)
    requires TowersReady(towers) && t.Valid() && t !in towers
    ensures TowersReady(towers + [t])
  {
  }

  function FirstOccupant(towers: seq<Tower>, s: Pos): (r: Option<nat>)
    ensures r.None? ==> forall i | 0 <= i < |towers| :: !Occupies(towers[i].pos, s)
    ensures r.Some? ==> r.value < |towers| && Occupies(towers[r.value].pos, s)
                        && forall i | 0 <= i < r.value :: !Occupies(towers[i].pos, s)
  {
    if towers == [] then None
    else if Occupies(towers[0].pos, s) then Some(0)
    else match FirstOccupant(towers[1..], s)
      case None => None
      case Some(k) => Some(k + 1)
  }

  /** The JSON tuples `save_game` writes: `(type, x, y, level)`. */
  function Entries(towers: seq<Tower>): (r: seq<TowerEntry>)
    reads towers
    ensures |r| == |towers|
    ensures forall i | 0 <= i < |r| ::
      r[i] == TowerEntry(4, Some(towers[i].kind), towers[i].pos.x, towers[i].pos.y, towers[i].level)
  {
    if towers == [] then []
    else
      var t := towers[|towers| - 1];
      Entries(towers[..|towers| - 1]) + [TowerEntry(4, Some(t.kind), t.pos.x, t.pos.y, t.level)]
  }

  /** An entry `load_save` rebuilds: four fields and a known tower type. */
  predicate Restorable(e: TowerEntry) {
    e.arity == 4 && e.kind.Some?
  }

  function Kept(entries: seq<TowerEntry>): seq<TowerEntry> {
    if entries == [] then []
    else
      var e := entries[|entries| - 1];
      Kept(entries[..|entries| - 1]) + (if Restorable(e) then [e] else [])
  }

  lemma KeptAppend(entries: seq<TowerEntry>, e: TowerEntry)
    ensures Kept(entries + [e]) == Kept(entries) + (if Restorable(e) then [e] else [])
  {
    assert (entries + [e])[..|entries|] == entries;
  }

  /** Everything `save_game` writes is read back: every tower entry is
      restorable, and the counters, difficulty and map are present. */
  lemma {:induction false} SavedTowersRestorable(towers: seq<Tower>)
    ensures Kept(Entries(towers)) == Entries(towers)
  {
    if towers != [] {
      var n := |towers| - 1;
      SavedTowersRestorable(towers[..n]);
      assert Entries(towers)[..n] == Entries(towers[..n]);
    }
  }

  /** The reload of one saved tower: a level-1 tower of the saved type at
      the saved position, whose level is overwritten with the saved one and
      which is then upgraded `level - 1` times. */
  method RestoreTower(kind: TowerType, pos: Point, level: int) returns (t: Tower)
    requires level >= 0
    ensures fresh(t) && t.Valid() && t.kind == kind && t.pos == pos
    ensures t.level == ReloadedLevel(level)
    ensures t.statLevel == if 2 <= level < MaxLevel then t.level else 1
    ensures t.fireTimer == 0.0 && t.target == null
  {
    t := new Tower(kind, pos);
    t.level := level;
    Reupgrade(t, level);
  }

  /** The `level - 1` upgrades of a reloaded tower whose level was just
      overwritten with the saved `level`. */
  method Reupgrade(t: Tower, level: int)
    requires level >= 0 && t.Valid() && t.level == level && t.statLevel == 1
    requires t.fireTimer == 0.0 && t.target == null
    modifies t`level, t`statLevel, t`upgrades, t`upgradeCost, t`damage, t`range, t`fireRate,
             t`critChance, t`critMultiplier, t`splashRadius, t`splashDamagePercent,
             t`chainTargets, t`missileCount, t`homingStrength, t`maxTargets
    ensures t.Valid() && t.fireTimer == 0.0 && t.target == null
    ensures t.level == ReloadedLevel(level)
    ensures t.statLevel == if 2 <= level < MaxLevel then t.level else 1
  {
    var n := 0;
    while n < level - 1
      invariant 0 <= n <= (if level >= 1 then level - 1 else 0)
      invariant t.Valid() && t.fireTimer == 0.0 && t.target == null
      invariant t.level == Climb(level, n)
      invariant t.statLevel == if n >= 1 && level < MaxLevel then t.level else 1
    {
      var _ := t.Upgrade();
      n := n + 1;
    }
    assert n == if level >= 1 then level - 1 else 0;
  }

  /** The level after setting `level` and upgrading `n` times. */
  function Climb(level: int, n: nat): int {
    if level >= MaxLevel then level else if level + n < MaxLevel then level + n else MaxLevel
  }

  /** The reload changes the level of a tower saved at level 2 or 3 (to 3
      and 4): only levels up to 1 and from the top level up survive a save
      and reload, the latter with the stats of level 1. */
  lemma ReloadKeepsLevel(saved: int)
    requires saved >= 0
    ensures ReloadedLevel(saved) == saved <==> saved <= 1 || saved >= MaxLevel
    ensures 2 <= saved < MaxLevel ==> ReloadedLevel(saved) == if 2 * saved - 1 < MaxLevel then 2 * saved - 1 else MaxLevel
  {
  }
}
