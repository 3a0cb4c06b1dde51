# TDS.py simulation core in Dafny

This project models the simulation core of TDS.py, a wave-based tower-defence
game: enemies spawn in timed waves, walk a road computed by breadth-first
search over a tile map, and are shot by towers the player places on tower
spots; an enemy that reaches the base costs lives, a kill pays money and
score. What is modelled, module by module:

- `Common` — archetype enumerations, points and squared distances, Python's
  `int()` on floats (`Trunc`), powers, and `Rng`, the stream of
  `random.random()` values read in order.
- `Pathfinder` — `find_path_bfs` (proved to return a shortest simple walk,
  or nothing exactly when the end is unreachable), the cell scan of
  `load_map`, the map offsets, the waypoint lists and their fallbacks.
- `Enemies` — the `enemy_stats` table, the `Enemy` class with `update`,
  `has_reached_end` and `take_damage` (evasion roll, armour, death).
- `Projectiles` — the `Projectile` class: construction, `update_movement`,
  `update` (homing).
- `Towers` — the constructor table, `upgrade`, `get_next_upgrade_stats`,
  `find_target`, `find_multiple_targets`, `can_attack`, `update`, `attack`,
  `create_projectile`, `attack_tesla`.
- `StableSort` — the stable sort behind `list.sort(key=…)` and `sorted`.
- `Waves` — `generate_waves` with its difficulty scaling, the roster of
  `start_wave` and `random.shuffle`.
- `Frame` — the three loops of `on_update` over the enemy, tower and
  projectile lists, with Python's remove-while-iterating behaviour of the
  escape loop written out.
- `Match` — the game view: the constructor, `load_map`, `start_wave`,
  `spawn_enemy`, the board clicks, the wave button and space key,
  `save_game`, `load_save`, and `on_update` as a whole.
- `Scores` — `save_score` and `load_scores` of the save manager, with
  Python's `int()` on strings.

Floats are modelled as exact reals; float geometry (square roots,
normalised headings, homing turns, sprite collisions) is passed in as
function parameters, so every property holds whatever those functions
compute. Randomness is an input: `Rng` for `random.random()`, a
`below` function for the shuffle's `randbelow`, a boolean for the hell
map's path choice.

Where the code and its description disagree, the model follows the code:

- A projectile damages every live enemy in its hit list at full damage.
  The artillery splash fields and the laser chain count are set by the
  tower but never read by the collision loop, so there is no splash and
  no chain damage.
- The upgrade price is truncated (`int(cost * 1.6)`), not rounded.
- A tesla kill is not removed from the enemy list and pays nothing
  (`attack_tesla` ignores the `died` flag); the corpse stays on the list,
  which then never empties.

## Model

| member | source | states |
|---|---|---|
| Common.DistSq | TDS.py:617-621 | squared distance is non-negative and zero from a point to itself |
| Common.TruncBounds | TDS.py:414-417 | `Trunc`, Python's `int()` on a float, truncates toward zero: within one below a non-negative value, within one above a negative one |
| Common.TruncMonotone | TDS.py:414-417 | truncation keeps order |
| Common.Pow | TDS.py:867-868 | a positive base raised to any power stays positive |
| Common.PowAtLeastOne | TDS.py:867-868 | a growth factor of at least one raised to any power is at least one |
| Common.PowMonotone | TDS.py:867-868 | higher powers of such a factor are no smaller |
| Common.Rng.Random | TDS.py:454 | each draw reads the next value of the stream and advances it by one |
| Enemies.HealthMultiplier | TDS.py:312-317 | every difficulty multiplies health by at least 1.3 |
| Enemies.Table | TDS.py:319-410 | every archetype has positive health, growth, speed and bounty; only the tank has armour, only the ninja evasion, both below one |
| Enemies.Health | TDS.py:412-415 | an enemy of a wave (level at least 0) starts with positive health |
| Enemies.Bounty | TDS.py:417 | an enemy of a wave never pays a negative bounty |
| Enemies.HealthGrowsWithLevel | TDS.py:319-415 | a higher level never gives less health |
| Enemies.BountyGrowsWithLevel | TDS.py:319-417 | a higher level never pays less |
| Enemies.HarderIsTougher | TDS.py:312-317 | easy ≤ normal ≤ hard health at the same level |
| Enemies.BossesOutlastRegulars | TDS.py:319-415 | at any level and difficulty every boss has more health than every regular enemy |
| Enemies.BossFloor | TDS.py:378-409 | every boss starts at 1600 health or more and gains 180 or more a level |
| Enemies.RegularCeiling | TDS.py:320-377 | every regular enemy starts at 500 or less and gains 80 or less a level |
| Enemies.Absorbed | TDS.py:457 | with armour below one a positive hit gets through in part, never more than the hit |
| Enemies.Walk | TDS.py:428-444 | a move never changes health or liveness, advances the cursor by at most one, does nothing to a dead or finished enemy, and holds position when the waypoint is reached |
| Enemies.Enemy.constructor | TDS.py:302-426 | a live enemy with the table's stats at the first waypoint, cursor at zero, full health |
| Enemies.Enemy.Update | TDS.py:428-444 | the motion state becomes `Walk` of the old one |
| Enemies.Enemy.HasReachedEnd | TDS.py:446-447 | an enemy whose cursor has passed the last waypoint is never moved again by `update`, whatever the heading |
| Enemies.Enemy.TakeDamage | TDS.py:449-462 | one roll: below the evasion it misses; otherwise the absorbed damage is taken, and `died` is true exactly when health drops to zero or below |
| Enemies.OnlyNinjaEvades | TDS.py:449-456 | no archetype but the ninja can evade a hit |
| Enemies.KillThreshold | TDS.py:457-460 | a hit kills exactly when the absorbed damage reaches the health; the tank takes 70 % |
| Projectiles.Projectile.constructor | TDS.py:228-262 | a shot keeps position, target, damage, speed and flags, homing strength 0.1, aimed at a target with health |
| Projectiles.Projectile.UpdateMovement | TDS.py:264-271 | re-aims at a target with health, otherwise keeps its velocity; position and target stay |
| Projectiles.Projectile.Update | TDS.py:273-293 | a homing shot with a living target turns towards it, then the shot moves by its velocity |
| Towers.Base | TDS.py:527-605 | every tower type starts with positive damage, range, fire rate, price and upgrade price |
| Towers.LevelMultiplier | TDS.py:858-865 | the damage multiplier of every level lies between 1 and 3 |
| Towers.LevelFireRate | TDS.py:868 | fire rates stay positive at every level |
| Towers.PlacementCost | TDS.py:2888-2898 | the build price of each type is the constructor's own price |
| Towers.UpgradeNeverWeakens | TDS.py:854-868 | each upgrade keeps or raises damage and strictly raises range and fire rate |
| Towers.DamageNeverDrops | TDS.py:865-866 | `LevelDamage`: damage never drops with the level |
| Towers.RangeGrows | TDS.py:867 | `LevelRange`: range strictly grows with the level |
| Towers.FireRateGrows | TDS.py:868 | fire rate strictly grows with the level |
| Towers.UpgradeCostGrows | TDS.py:869 | `NextUpgradeCost`: every upgrade strictly raises the next price, never below the starting one |
| Towers.Nearest | TDS.py:611-626 | the running minimum picks the first eligible enemy strictly nearest within the bound, or none |
| Towers.Candidates | TDS.py:632-640 | the candidates are listed in input order and are enemies of the list |
| Towers.CandidatesExactly | TDS.py:632-640 | an entry is a candidate exactly when it is a live enemy with health within range |
| Towers.FindMultipleTargets | TDS.py:628-643 | at most `max_targets` enemies, all from the list |
| Towers.MultipleTargetsInRange | TDS.py:632-640 | every chosen target is alive, has health and is within range |
| Towers.MultipleTargetsSorted | TDS.py:642 | chosen targets come nearest first; two at the same distance appear in the same order as in the enemy list |
| Towers.MultipleTargetsNearest | TDS.py:642-643 | an eligible enemy in range left out is no nearer than any chosen one |
| Towers.MultipleTargetsDistinct | TDS.py:628-643 | no enemy is chosen twice |
| Towers.Tower.constructor | TDS.py:511-605 | a level-1 tower with the type's base stats, no target, timer at zero |
| Towers.Tower.LevelUp | TDS.py:854-890 | below the top level, `upgrade` leaves the tower `Upgraded`: one level up, that level's stats and abilities, the price raised, fire timer and target untouched |
| Towers.Tower.Upgrade | TDS.py:854-890 | at the top level nothing changes and 0 is returned; otherwise the level rises by one, stats and ability fields are the new level's, the upgrade price is multiplied by 1.6 and truncated and returned |
| Towers.Tower.RaiseStats | TDS.py:865-868 | damage, range and fire rate become the level's |
| Towers.Tower.RaiseAbilities | TDS.py:871-887 | `LevelAbilities`: only the tower type's own ability fields become the level's |
| Towers.Tower.GetNextUpgradeStats | TDS.py:892-909 | none exactly at the top level; otherwise the next level's damage, range and fire rate and the truncated next price |
| Towers.Tower.FindTarget | TDS.py:607-626 | a tesla coil from level 2 keeps its target; any other tower takes the nearest live enemy strictly within range, or none |
| Towers.Tower.CanAttack | TDS.py:645-646 | a tower can only fire once its timer is positive: never straight after a reset |
| Towers.Tower.CreateProjectile | TDS.py:684-705 | a fresh shot from the tower at its target; only a sniper rolls, and a roll below the crit chance multiplies damage and flags it critical |
| Towers.Tower.Attack | TDS.py:677-682 | `ShotCount`: `missile_count` distinct fresh shots for a rocket tower from level 2, one otherwise |
| Towers.Tower.AttackTesla | TDS.py:735-742 | `Falloff`: the targets are `find_multiple_targets`' and the `k`-th takes damage times `damage_reduction` to the `k` |
| Towers.Tower.Update | TDS.py:648-675 | the timer advances; a tesla coil discharges when ready and resets; any other tower retargets and fires when ready and in range; enemies not hit are unchanged and none moves |
| Towers.Tower.UpdateTesla | TDS.py:652-656 | the tesla branch of `update`, touching only the discharged enemies |
| Towers.Tower.UpdateShooter | TDS.py:658-675 | the shooting branch of `update`: retarget, then fire with a timer reset exactly when ready and in range |
| Towers.Tower.Retarget | TDS.py:658-666 | the target is kept while alive, with health and in range, else replaced by `find_target`'s |
| Towers.Tower.Discharge | TDS.py:740-742 | the loop of `attack_tesla` applies falloff damage to each target in turn |
| StableSort.Insert | TDS.py:642 | insertion adds exactly one entry |
| StableSort.Sort | TDS.py:1057 | the sort is a permutation of its input |
| StableSort.InsertSorted | TDS.py:642 | inserting into a sorted list keeps it sorted |
| StableSort.SortStable | TDS.py:1057 | on input listed in order the result is sorted by key, ties in input order |
| StableSort.SortSameEntries | TDS.py:1057 | sorting keeps exactly the same entries |
| StableSort.PrefixSmallest | TDS.py:642-643 | every entry a prefix leaves out has a key no smaller than the prefix's |
| Waves.GenerateWaves | TDS.py:1663-1722 | fourteen waves, each the base row rescaled for the difficulty |
| Waves.ScaleCountOrder | TDS.py:1709-1720 | `ScaleCount`: easy ≤ normal ≤ hard counts; hard doubles; easy takes one boss away and shrinks every other positive count |
| Waves.TotalsOrdered | TDS.py:1709-1720 | `Total`: a wave's easy total is at most the normal one, the hard total twice it |
| Waves.TotalNonNegative | TDS.py:2746 | a wave of non-negative counts has a non-negative `total_enemies` |
| Waves.TotalAtLeast | TDS.py:2746 | no count of such a wave exceeds its total |
| Waves.WavesNeverEmpty | TDS.py:1664-1722 | every generated wave at every difficulty has enemies |
| Waves.Repeat | TDS.py:2750-2788 | `[t] * c` holds `c` copies of `t` |
| Waves.BuildRoster | TDS.py:2749-2788 | the extension loop builds the roster of the wave |
| Waves.RosterCounts | TDS.py:2749-2788 | `Roster`: the roster holds each archetype exactly as often as the wave counts it |
| Waves.RosterSize | TDS.py:2746-2788 | the roster is as long as the wave total |
| Waves.Shuffle | TDS.py:2790 | the shuffle permutes the roster |
| Pathfinder.HeadIsShortest | TDS.py:1769-1774 | the path at the head of the queue is no longer than any walk to its end cell |
| Pathfinder.ExhaustedUnreachable | TDS.py:1769-1784 | an empty queue with the end never expanded means the end is unreachable |
| Pathfinder.ExpandHead | TDS.py:1776-1782 | the four moves enqueue exactly the unvisited road neighbours, each one step longer |
| Pathfinder.FindPathBfs | TDS.py:1761-1784 | none exactly when a cell is not road or the end is unreachable; otherwise a simple 4-connected road walk from start to end no longer than any other |
| Pathfinder.LevelMapsRect | TDS.py:1787-1858 | every level map has 15 rows of 20 cells |
| Pathfinder.ScanLevel | TDS.py:1872-1899 | the road cells with their centres, the starts and end in row-major order, and the tower spots left of the buttons |
| Pathfinder.ScanCell | TDS.py:1882-1899 | one cell of the scan |
| Pathfinder.Waypoints | TDS.py:1938 | one waypoint per cell, its centre |
| Pathfinder.Route | TDS.py:1928-1969 | the waypoints of a shortest road walk, or start and end centres when there is none |
| Pathfinder.RouteStepsOneTile | TDS.py:1776-1782 | consecutive waypoints of a found route are one tile apart on one axis |
| Pathfinder.RouteEndpoints | TDS.py:1935-1943 | a route runs from the start cell's centre to the end position |
| Pathfinder.Offsets | TDS.py:1860-1870 | the map is centred, by floor division, in the area left of the buttons and below the bar |
| Pathfinder.FallbackPath | TDS.py:1906-1926 | two waypoints, default corners where the map has no start or end |
| Pathfinder.LoadLevel | TDS.py:1860-1926 | the scan, the offsets and one route per start (two on hell), with the fallback; the first path has two waypoints or keeps a non-empty old one |
| Pathfinder.LoadMapOf | TDS.py:1786-1926 | `load_map` on each map leaves a usable first path; only hell touches the second |
| Pathfinder.StartIsNotEnd | TDS.py:1886-1893 | a scanned start is a road cell other than the end |
| Frame.Survivors | TDS.py:2620-2624 | the survivors are at most as many as the enemies visited |
| Frame.SurvivorsFrom | TDS.py:2620-2624 | survivors come from the list, and a list without repeats gives survivors without repeats |
| Frame.Advance | TDS.py:2621-2622 | the visited enemy moves, and the reported arrival is `has_reached_end` |
| Frame.Visit | TDS.py:2620-2627 | one turn of the escape loop: an arrival costs lives and is removed, which makes the iterator skip the next enemy |
| Frame.EscapeLoop | TDS.py:2620-2627 | every enemy is visited or skipped in the iterator's rhythm; exactly the escaped leave; lives drop by the base damage per escape; game over when lives reach zero after an escape |
| Frame.EscapePass | TDS.py:2620-2627 | the escape loop on a board of distinct valid enemies, which stays such a board |
| Frame.Concat | TDS.py:2633-2641 | the shots of all salvos, each from some salvo |
| Frame.UpdateTower | TDS.py:2634-2641 | one tower's `update`: a tesla coil takes its `TeslaStep` (a discharge into `find_multiple_targets` with falloff damage and one roll per target), any other tower its `ShooterStep` (retarget, then fire); its timer is `Clocked`; no enemy moves, only enemies it discharged into change, no other tower's timer or target changes, the salvo is fresh and distinct, and every tower stays valid |
| Frame.TowerVisit | TDS.py:2633-2643 | one turn of the tower loop: with update, tower `i` takes its `TeslaStep` or `ShooterStep` and its salvo is appended to the shots; without, only its timer advances; the loop state moves on by one tower |
| Frame.ActiveVisit | TDS.py:2634-2641 | tower `i` takes its `TeslaStep` or `ShooterStep` and its salvo is appended; enemies outside its discharge list keep their state |
| Frame.IdleVisit | TDS.py:2642-2643 | the turn of a tower in a frame without update: only its timer advances, with no shot, no roll and no enemy change |
| Frame.IdleTimer | TDS.py:2643 | the timer advances by the frame time and every tower stays valid |
| Frame.TowerLoop | TDS.py:2633-2643 | after the loop the shots are the initial list followed by one salvo per tower in order, every tower is `Clocked`, no enemy moved, and only enemies in some discharge list changed |
| Frame.TowerPass | TDS.py:2633-2643 | new shots are the towers' salvos in tower order and each tower is `Clocked`; no enemy moves; only enemies in some tesla coil's discharge list (at most `max_targets` each) change; without update no shot, no roll and no enemy change |
| Frame.Collisions | TDS.py:2665-2667 | the hit list is exactly the enemies the shot touches, in list order |
| Frame.Remaining | TDS.py:2698-2699 | what is left of a list after removals is no longer |
| Frame.RemainingMembers | TDS.py:2698-2699 | an element remains exactly when some unremoved position holds it |
| Frame.RemoveRemaining | TDS.py:2678 | on a list without repeats, `list.remove` of an enemy still on it leaves the list with exactly that enemy also gone |
| Frame.BountiesFlag | TDS.py:2675-2678 | one more kill pays exactly that enemy's bounty |
| Frame.BountiesNone | TDS.py:2675-2678 | no kill pays nothing |
| Frame.BountiesNonNegative | TDS.py:2675-2678 | the bounties of enemies of the waves add up to a non-negative amount |
| Frame.Hit | TDS.py:2669-2685 | a live enemy is hurt with one roll and, if it dies, removed with bounty and ten times its bounty in score; a dead one is untouched |
| Frame.StrikeVisit | TDS.py:2669-2685 | one turn of the hit loop: a live hit takes the shot's damage through `take_damage` with the next roll; a dead one is skipped without a roll; no other enemy changes |
| Frame.Strike | TDS.py:2669-2697 | each live enemy of the hit list takes the damage with its own roll, in list order, and the dead ones are skipped (`Struck`); only enemies of the hit list change or die; kills are never undone; money and score follow the kills |
| Frame.Fly | TDS.py:2646-2663 | the shot moves; a shot whose target died turns to the nearest live enemy when there is one |
| Frame.ProjectileVisit | TDS.py:2645-2699 | one turn of the projectile loop: the shot flies as `Fly` states (position, new target, velocity), then strikes every enemy it touches at its new position (`Collisions`, `Struck`) and leaves the list if it touched any; no other enemy changes |
| Frame.Launch | TDS.py:2646-2663 | the flight of shot `j`, as `Fly` states it, leaving the loop state intact |
| Frame.Impact | TDS.py:2665-2699 | the hit list is `Collisions` at the shot's position; a shot that touches enemies strikes them and is removed, one that touches none changes nothing; the shot itself is not changed |
| Frame.Missed | TDS.py:2665-2668 | a shot with an empty hit list touches no enemy left |
| Frame.Land | TDS.py:2668-2699 | a shot that hits strikes its list (`Struck`) and is removed; the shot itself is unchanged and enemies outside the list keep their state |
| Frame.ProjectileLoop | TDS.py:2645-2699 | exactly the shots that hit are removed and exactly the killed enemies; money grows by their bounties and score by ten times that; a shot left never touches an enemy left |
| Frame.ProjectilePass | TDS.py:2645-2699 | the projectile loop on a ready board: the remaining shots and enemies stay distinct and ready, and money never drops |
| Match.Types | TDS.py:2792-2796 | the archetypes of the spawn timers, in order |
| Match.Timed | TDS.py:2792-2796 | the `i`-th timer spawns the `i`-th archetype at 1.5·i seconds |
| Match.Capped | TDS.py:2703-2704 | more than 100 shots are cut to the newest 80; up to 100 are kept as they are |
| Match.FirstSpot | TDS.py:2871-2874 | the first spot within half a tile of the click, or none when no spot is |
| Match.FirstOccupant | TDS.py:2876-2885 | the first tower within 10 pixels of the spot, or none |
| Match.Match.constructor | TDS.py:1598-1661 | the difficulty's money and lives, zero score and wave, an empty board and the difficulty's waves |
| Match.HarderStartsPoorer | TDS.py:64-69 | a harder difficulty starts with strictly less money and fewer lives, all positive |
| Match.Match.LoadMap | TDS.py:1786-1926 | the scan's spots and routed paths; the first path has two waypoints or keeps a non-empty old one |
| Match.Match.StartWave | TDS.py:2739-2798 | unless every wave has started: the next wave is active with its total owed, one timer per enemy 1.5 s apart in a shuffled order with the wave's counts, and the counter advances |
| Match.Match.RequestWave | TDS.py:2965-2967 | the space key starts a wave exactly when none is running and one is left; otherwise nothing changes |
| Match.Match.PressWaveButton | TDS.py:2826-2836 | the wave button starts a wave exactly when the game is neither lost nor won, none is running and one is left; otherwise nothing changes |
| Match.Match.SpawnPath | TDS.py:2802-2818 | the first path except on hell with a second path, where the coin picks |
| Match.Match.SpawnEnemy | TDS.py:2800-2824 | while enemies are owed and the path is not empty, one enemy of the wave's level joins at the end of the list and is counted, never beyond the total |
| Match.Match.ClickBoard | TDS.py:2825-2908 | nothing in a lost or won game; with the upgrade menu open, a click outside it only closes the menu; otherwise `SpotClicked`; no two towers share a spot and money stays non-negative |
| Match.Match.ClickSpot | TDS.py:2871-2908 | `SpotClicked`: on the first spot hit, select its first occupant with the menu open, or build the selected type there when affordable, paying its price; off every spot, or unaffordable, nothing changes; towers stay apart and money non-negative |
| Match.Match.Build | TDS.py:2900-2907 | the new tower is appended, its price paid, and it is selected |
| Match.Match.PurchaseUpgrade | TDS.py:2825-2850 | for a click on the upgrade button: an upgrade is bought when the game is neither lost nor won, the menu is shown, a tower below the top level is selected and its shown price is affordable, and otherwise nothing changes; that price is paid, the menu closes, and the selected tower is `Upgraded`: one level up with that level's stats and abilities, the raised price, and its fire timer and target as they were |
| Match.Match.ChooseTowerType | TDS.py:2851-2859 | a tower-type button selects the type of the next tower built and closes the upgrade menu; nothing in a lost or won game |
| Match.Match.SaveGame | TDS.py:2976-2988 | one saved entry per tower, every one of which `load_save` rebuilds |
| Match.Entries | TDS.py:2984-2987 | each entry is its tower's type, position and level |
| Match.SavedTowersRestorable | TDS.py:3003-3011 | every entry the game saves is one `load_save` rebuilds |
| Match.Match.LoadSave | TDS.py:2992-3015 | missing keys take their defaults, kept entries are rebuilt and appended, and the map is loaded |
| Match.Match.ReadCounters | TDS.py:2993-3001 | counters, difficulty and map from the save, defaults for missing keys |
| Match.Match.AddTowers | TDS.py:3003-3013 | the rebuilt towers join those already placed |
| Match.RestoreTowers | TDS.py:3003-3013 | one fresh valid tower per entry of four fields with a known type, in order |
| Match.RestoreTower | TDS.py:3007-3010 | a saved tower reloads with its type and position and the reload level |
| Match.Reupgrade | TDS.py:3008-3010 | the `level - 1` upgrades after the overwritten level leave the reload level, valid stats and an untouched timer and target |
| Match.ReloadKeepsLevel | TDS.py:3008-3010 | `ReloadedLevel`: the reload keeps the level exactly at levels up to 1 and from 4; levels 2 and 3 come back as 3 and 4 |
| Match.PlacedApart | TDS.py:2876-2902 | a tower built on a free spot keeps all towers on different spots |
| Match.FindSpot | TDS.py:2871-2874 | the spot loop finds `FirstSpot` |
| Match.FindOccupant | TDS.py:2876-2885 | the occupancy loop finds `FirstOccupant` |
| Match.ShuffledRoster | TDS.py:2749-2790 | the shuffled roster holds each archetype as often as the wave counts it |
| Match.ScheduleSpawns | TDS.py:2792-2796 | the spawn timers are `Timed` of the order |
| Match.Match.Escape | TDS.py:2620-2627 | the escape pass on the game: survivors in the iterator's rhythm, lives lost per escape, game over at zero |
| Match.Match.TowerStep | TDS.py:2629-2643 | the frame counter advances; towers update on even frames or with fewer than 20 enemies; new shots are the salvos in tower order, each tower is `Clocked`, no enemy moves, and only enemies a tesla coil discharged into change |
| Match.Match.ProjectileStep | TDS.py:2645-2699 | shots that hit and enemies killed are removed; money grows by the bounties and score by ten times as much |
| Match.Match.CapProjectiles | TDS.py:2703-2704 | the shot list is `Capped` |
| Match.Match.AutoWave | TDS.py:2706-2724 | a wave starts exactly when the board is idle and a running countdown expires; the countdown is armed, runs down or is reset |
| Match.Match.WaveEnd | TDS.py:2725-2737 | a cleared wave ends with its counters reset; clearing the last wave wins; the wave timer runs between waves |
| Match.Match.Pace | TDS.py:2706-2737 | the countdown, then the end of wave: a won game stays won, and a frame that wins leaves every wave started and the board empty |
| Match.Match.Fire | TDS.py:2629-2699 | the tower and projectile loops never spend money and score ten points per coin |
| Match.Match.Combat | TDS.py:2620-2699 | the three loops never add lives, never spend money, score ten points per coin and never undo a game over |
| Match.Match.Tick | TDS.py:2610-2737 | a lost or won game changes nothing (no field, enemy, tower, shot or roll); otherwise towers stay, lives never rise, money never drops, score is ten per coin, loss and win are final, and a win leaves every wave started and the board empty |
| Scores.StripLeft | TDS.py:1048-1050 | the result is a suffix of the text that does not start with whitespace, and everything removed is whitespace |
| Scores.StripRight | TDS.py:1048-1050 | the result is a prefix of the text that does not end with whitespace, and everything removed is whitespace |
| Scores.ShowNat | TDS.py:1029-1032 | `str` of a natural number is a non-empty run of digits |
| Scores.ShowNatValue | TDS.py:1029-1032 | the digits of `str(n)` spell `n` |
| Scores.ParseShow | TDS.py:1048-1050 | `ParseInt` of `Show`: every integer the game writes reads back as itself |
| Scores.ParseDigits | TDS.py:1048-1050 | a digit run parses to its value |
| Scores.ParseNegated | TDS.py:1048-1050 | a minus sign and a digit run parse to minus its value |
| Scores.ParseRow | TDS.py:1043-1056 | a row loads exactly when it has at least seven fields and fields 1 to 3 parse as integers |
| Scores.SavedRowLoads | TDS.py:1043-1054 | `Row`: a row `save_score` writes loads back as the same record |
| Scores.ParsedExactly | TDS.py:1043-1056 | the loaded records are exactly those of rows that parse |
| Scores.Ranked | TDS.py:1057 | the ranking has one entry per record |
| Scores.TopScores | TDS.py:1057 | at most ten records, all of them when there are ten or fewer |
| Scores.TopScoresFromInput | TDS.py:1057 | the table lists records of the input |
| Scores.TopScoresDescending | TDS.py:1057 | best first, equal scores in file order |
| Scores.TopScoresKeepsBest | TDS.py:1057 | no record scoring above the tenth is left out |
| Scores.LoadScores | TDS.py:1038-1057 | the top ten of the rows that parse, each from some row of the file |

## Left out

- Match.Match.ClickBoard, Match.Match.PurchaseUpgrade and Match.Match.ChooseTowerType: the
  hit tests of `on_mouse_press` (TDS.py:2829-2869) are left to the caller. That is, which
  button the click lands on, whether it falls inside the upgrade menu's rectangle (the
  `inMenu` parameter), and whether it falls in the interface bands, where it does nothing.
  Each method is the branch for one kind of click, so the order of those tests is not
  modelled. The wave button is Match.Match.PressWaveButton, which ignores
  the click in a lost or won game; the space key is Match.Match.RequestWave,
  which has no such check.
- Drawing, sound, particles, floating texts, the pause and menu views,
  window resizing and the mouse-hover code are not modelled: they change
  nothing the simulation reads.
- Float arithmetic is modelled by exact reals. Where a float product is
  truncated by `int()` only once, exact arithmetic gives the same integer
  for the table's constants at the levels the waves spawn each archetype
  at, with the exception below; accumulated rounding in positions, timers
  and fire rates is not modelled.
- Enemies.Bounty: the cyber boss's bounty `int((320 + 40·L)·1.4)` is one
  lower in floats than in exact arithmetic at levels 1, 9 and 10 (503, 951
  and 1007 against 504, 952 and 1008). The waves spawn that boss only at
  levels 12 to 14, where both agree, so no game reaches the difference.
- Square roots, normalised headings, `atan2` angles and sprite hit boxes
  are function parameters (`heading`, `turn`, `collides`). Distance
  comparisons are made on squared distances, which order the same way.
- Sprite angles and the rocket's visual spin are not modelled.
- `random.random()` is the stream `Rng`. `random.shuffle` is modelled by a
  Fisher–Yates loop whose draws come from `below(n) % n`; CPython's own
  `randbelow` is not modelled. The coin of `spawn_enemy` on the hell map is
  a boolean parameter.
- `arcade.schedule` is recorded as a list of (delay, archetype) entries.
  The framework's firing of those timers is not modelled. That includes
  the fact that arcade timers repeat until unscheduled; each firing is one
  call of `SpawnEnemy`.
- File access is not modelled. `save_game`'s JSON and the score CSV are
  already decoded values: a `SaveData` record with optional fields, and
  rows of string fields. Errors while opening or writing a file are not
  modelled.
- `Scores.ParseRow` follows `int()` for ASCII input only. Python also
  accepts non-ASCII digits and Unicode whitespace; the model rejects them.
  Python 3.11 and later also reject a string of more than 4300 digits,
  which the model parses.
- `Match.Match.LoadSave` asks that a saved wave and saved tower levels be
  non-negative. Only `save_game` writes saves, and it writes such values.
  The saved difficulty and map are decoded enumeration values. An unknown
  value, for which Python raises, is not modelled, and neither is a
  corrupted file.
- `Match.Match.LoadSave`: the waves generated when the view was created
  are kept, so a save from an easy or hard game reloads with the
  constructor's waves. This is the code's behaviour and is reproduced.
- `Match.RestoreTower`: `load_save` sets the saved level and then upgrades
  `level - 1` times from it. A tower saved at level 2 comes back at
  level 3, and one at level 3 comes back at level 4. A tower saved at
  level 4 keeps base stats. This is reproduced and stated in
  `Match.ReloadKeepsLevel`.
- `Frame.Strike` works on a hit list without repeated enemies, as
  `Frame.Collisions` builds it from a list without repeats. Python's
  `list.remove` inside the hit loop is modelled on such lists only.
- A tesla kill leaves a dead enemy on the list with no bounty paid (see
  above). This is reproduced; `Match.Match.Tick` does not promise that a
  wave with a tesla kill ever ends.
- `Match.Match.Combat`: states only the scalar facts (lives, money, score,
  game over) and readiness. The lists' contents are stated by
  `Match.Match.Escape`, `Match.Match.TowerStep` and
  `Match.Match.ProjectileStep`.
- `Match.Match.Fire`: states only money, score and readiness; the
  details are in `Match.Match.TowerStep` and `Match.Match.ProjectileStep`.
- `Match.Match.Tick`: states the invariants of a frame and its lives,
  money, score, loss and win. The per-pass effects are the contracts of
  `Match.Match.Combat`, `Match.Match.CapProjectiles` and
  `Match.Match.Pace` (`Match.Match.AutoWave`, then `Match.Match.WaveEnd`),
  which it calls in order.
- `Match.Match.Pace`: states only validity and the win; the countdown
  and the wave counters are stated by `Match.Match.AutoWave` and
  `Match.Match.WaveEnd`.
- Frame.TowerLoop: states the new shots (the salvos in tower order), each
  tower's timer (`Clocked`), which enemies a tesla coil may have changed,
  and that no enemy moves. What each tower's step did (`TeslaStep`: the
  discharge targets and their falloff damage; `ShooterStep`: the new
  target and the shots fired) is stated per tower by `Frame.TowerVisit`
  and `Frame.UpdateTower` but is not collected across the loop.
- Frame.TowerPass: the same facts as `Frame.TowerLoop`, and the same gap.
- Match.Match.TowerStep: the same facts as `Frame.TowerPass` on the game's
  lists, and the same gap.
- Frame.ProjectileLoop: states which shots and enemies leave the lists,
  the money and score, and that no shot left touches an enemy left. Where
  each shot flew (`Fly`) and the damage each hit took (`Struck`) are
  stated per shot by `Frame.ProjectileVisit` but are not collected across
  the loop.
- Frame.ProjectilePass: the same facts as `Frame.ProjectileLoop`, and the
  same gap.
- Match.Match.ProjectileStep: the same facts as `Frame.ProjectilePass` on
  the game's lists, and the same gap.
- `Frame.Remaining`, `Frame.Survivors`: their contracts bound the length;
  membership is stated by `Frame.RemainingMembers` and
  `Frame.SurvivorsFrom`.
- The key handlers other than space and `S` are not modelled: escape
  switches views and saves a won game through `save_score`, which is
  `Scores.Row`; F11 resizes the window and reruns `load_map`, which is
  `Match.Match.LoadMap`.
