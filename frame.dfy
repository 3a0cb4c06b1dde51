/** The frame update of a game in progress (`on_update`), pass by pass: the
    escape pass over the enemies, the tower pass and the projectile pass.
    Each pass is a method over the lists it walks; the game view runs them in
    order. */
module Frame {
  import opened Common
  import opened Pathfinder
  import opened Enemies
  import opened Projectiles
  import opened Towers

  /** Lives lost per enemy that reaches the base. */
  const BaseDamage: int := 8

  // ---------------------------------------------------------------------
  // The escape pass
  //
  // `for enemy in self.enemy_list` walks the list by position while the
  // body removes the current enemy when it escapes. The removal shifts the
  // rest of the list one place to the front, so the iterator's next
  // position holds the enemy after the next one: the enemy right behind an
  // escaped one is skipped this frame. The pass is specified by the fate of
  // each enemy of the list it started with.
  // ---------------------------------------------------------------------

  /** What the escape pass did to one enemy: it walked and stayed, walked
      and escaped (and was removed), or was skipped. */
  datatype Fate = Walked | Escaped | Skipped

  /** The first `n` elements of `s`, without those whose fate is `Escaped`. */
  function Survivors<T>(s: seq<T>, fate: seq<Fate>, n: nat): (r: seq<T>)
    requires n <= |s| && n <= |fate|
    ensures |r| <= n
  {
    if n == 0 then [] else Survivors(s, fate, n - 1) + (if fate[n - 1] == Escaped then [] else [s[n - 1]])
  }

  /** Only the first `n` fates matter. */
  lemma {:induction false} SurvivorsPrefix<T>(s: seq<T>, fate: seq<Fate>, x: Fate, n: nat)
    requires n <= |s| && n <= |fate|
    ensures Survivors(s, fate + [x], n) == Survivors(s, fate, n)
  {
    if n > 0 {
      SurvivorsPrefix(s, fate, x, n - 1);
    }
  }

  lemma {:induction false} SurvivorsStep<T>(s: seq<T>, fate: seq<Fate>, x: Fate)
    requires |fate| < |s|
    ensures Survivors(s, fate + [x], |fate| + 1) == Survivors(s, fate, |fate|) + (if x == Escaped then [] else [s[|fate|]])
  {
    SurvivorsPrefix(s, fate, x, |fate|);
  }

  /** The survivors come from the list, and from a distinct list each comes
      once. */
  lemma {:induction false} SurvivorsFrom<T>(s: seq<T>, fate: seq<Fate>, n: nat)
    requires n <= |s| && n <= |fate|
    ensures forall x | x in Survivors(s, fate, n) :: x in s[..n]
    ensures Distinct(s) ==> Distinct(Survivors(s, fate, n))
  {
    if n > 0 {
      SurvivorsFrom(s, fate, n - 1);
      assert s[..n] == s[..n - 1] + [s[n - 1]];
      var r := Survivors(s, fate, n - 1);
      if Distinct(s) {
        assert s[n - 1] !in s[..n - 1];
        assert s[n - 1] !in r;
      }
    }
  }

  /** The rhythm the iterator imposes: the first enemy is visited, and an
      enemy is skipped exactly when the one before it escaped. */
  predicate Paced(fate: seq<Fate>) {
    && (|fate| > 0 ==> fate[0] != Skipped)
    && forall k, m {:trigger fate[k], fate[m]} | 0 <= k && m == k + 1 < |fate| :: fate[m] == Skipped <==> fate[k] == Escaped
  }

  /** The list bookkeeping of the escape pass after the first `|fate|`
      enemies of `e0` have been dealt with: the list is the survivors `w`
      followed by the enemies not reached yet, and the iterator `i` stands
      right after the survivors (or past the end once the last enemy has
      escaped). */
  ghost predicate Tracks<T>(e0: seq<T>, kept: seq<T>, i: int, w: seq<T>, fate: seq<Fate>) {
    && |fate| <= |e0|
    && w == Survivors(e0, fate, |fate|)
    && kept == w + e0[|fate|..]
    && (i == |w| || (|fate| == |e0| && i == |kept| + 1))
    && Paced(fate)
    && (0 < |fate| < |e0| ==> fate[|fate| - 1] != Escaped)
  }

  /** The enemy at the iterator is the first one not dealt with yet. */
  lemma {:induction false} VisitStart<T>(e0: seq<T>, kept: seq<T>, i: int, w: seq<T>, fate: seq<Fate>)
    requires Tracks(e0, kept, i, w, fate) && 0 <= i < |kept|
    ensures i == |w| && |fate| < |e0| && kept[i] == e0[|fate|]
  {
  }

  /** An enemy that walks and stays joins the survivors. */
  lemma {:induction false} WalkedStep<T>(e0: seq<T>, kept: seq<T>, i: int, w: seq<T>, fate: seq<Fate>)
    requires Tracks(e0, kept, i, w, fate) && 0 <= i < |kept|
    ensures Tracks(e0, kept, i + 1, w + [kept[i]], fate + [Walked])
  {
    var j := |fate|;
    SurvivorsStep(e0, fate, Walked);
    assert w + e0[j..] == (w + [e0[j]]) + e0[j + 1..];
  }

  lemma {:induction false} PacedEscape(fate: seq<Fate>)
    requires Paced(fate) && (|fate| > 0 ==> fate[|fate| - 1] != Escaped)
    ensures Paced(fate + [Escaped] + [Skipped]) && Paced(fate + [Escaped])
  {
  }

  /** Taking out the element right after `w` from `w + t` leaves `w`
      followed by the rest of `t`. */
  lemma {:induction false} DropAfter<T>(w: seq<T>, t: seq<T>)
    requires t != []
    ensures var kept := w + t; kept[..|w|] + kept[|w| + 1..] == w + t[1..]
  {
    var kept := w + t;
    assert kept[..|w|] == w;
    assert kept[|w| + 1..] == t[1..];
  }

  /** The survivors after an escape and a skip: the skipped one is added. */
  lemma {:induction false} SurvivorsEscapeSkip<T>(e0: seq<T>, fate: seq<Fate>)
    requires |fate| + 1 < |e0|
    ensures Survivors(e0, fate + [Escaped] + [Skipped], |fate| + 2) == Survivors(e0, fate, |fate|) + [e0[|fate| + 1]]
  {
    SurvivorsStep(e0, fate, Escaped);
    SurvivorsStep(e0, fate + [Escaped], Skipped);
  }

  /** An enemy escapes and is removed with one behind it: the iterator
      passes over that one, which stays on the list. */
  lemma {:induction false} EscapedSkip<T>(e0: seq<T>, kept: seq<T>, i: int, w: seq<T>, fate: seq<Fate>)
    requires Tracks(e0, kept, i, w, fate) && 0 <= i < |kept| && |fate| + 1 < |e0|
    ensures Tracks(e0, kept[..i] + kept[i + 1..], i + 1, w + [e0[|fate| + 1]], fate + [Escaped] + [Skipped])
  {
    var t := e0[|fate|..];
    DropAfter(w, t);
    assert t[1..] == [e0[|fate| + 1]] + e0[|fate| + 2..];
    SurvivorsEscapeSkip(e0, fate);
    PacedEscape(fate);
  }

  /** The last enemy of the list escapes: the iterator runs off the end. */
  lemma {:induction false} EscapedLast<T>(e0: seq<T>, kept: seq<T>, i: int, w: seq<T>, fate: seq<Fate>)
    requires Tracks(e0, kept, i, w, fate) && 0 <= i < |kept| && |fate| + 1 == |e0|
    ensures Tracks(e0, kept[..i] + kept[i + 1..], i + 1, w, fate + [Escaped])
  {
    SurvivorsStep(e0, fate, Escaped);
    assert kept[..i] + kept[i + 1..] == w + e0[|fate| + 1..];
    PacedEscape(fate);
  }

  /** What the escape pass leaves of an enemy that started in motion state
      `m0`: a skipped enemy is as it was; any other walked one step and
      escaped exactly when that step left it at the end of its path. */
  predicate VisitedFrom(e: Enemy, m0: Motion, f: Fate, heading: Heading)
    reads e
  {
    if f == Skipped then e.State() == m0
    else e.State() == Walk(m0, e.path, e.speed, heading) && (f == Escaped <==> e.HasReachedEnd())
  }

  /** The enemies of `e0`, which started in the motion states `start`: all
      valid, the first `|fate|` dealt with as their fates say, the others
      not touched yet. */
  ghost predicate Progress(e0: seq<Enemy>, start: seq<Motion>, fate: seq<Fate>, heading: Heading)
    reads set k | 0 <= k < |e0| :: e0[k]
  {
    && |fate| <= |e0| == |start|
    && (forall k | 0 <= k < |e0| :: e0[k].Valid())
    && (forall k | 0 <= k < |fate| :: VisitedFrom(e0[k], start[k], fate[k], heading))
    && (forall k | |fate| <= k < |e0| :: e0[k].State() == start[k])
  }

  /** The motion states of a list of enemies. */
  ghost function States(e0: seq<Enemy>): (r: seq<Motion>)
    reads set k | 0 <= k < |e0| :: e0[k]
    ensures |r| == |e0| && forall k | 0 <= k < |e0| :: r[k] == e0[k].State()
  {
    if e0 == [] then []
    else
      var n := |e0| - 1;
      assert forall k | 0 <= k < n :: e0[..n][k] == e0[k];
      States(e0[..n]) + [e0[n].State()]
  }

  /** The enemy at the iterator moves (`update`) and reports whether it has
      reached the end; no other enemy changes. */
  method Advance(e: Enemy, heading: Heading, ghost e0: seq<Enemy>, ghost start: seq<Motion>, ghost fate: seq<Fate>)
    returns (reached: bool)
    requires Distinct(e0) && Progress(e0, start, fate, heading) && |fate| < |e0| && e == e0[|fate|]
    modifies e
    ensures reached == e.HasReachedEnd()
    ensures Progress(e0, start, fate + [if reached then Escaped else Walked], heading)
  {
    e.Update(heading);
    reached := e.HasReachedEnd();
    assert forall k | 0 <= k < |e0| && k != |fate| :: e0[k] != e;
  }

  /** The enemy the iterator passes over stays as it was. */
  lemma {:induction false} SkipNext(e0: seq<Enemy>, start: seq<Motion>, fate: seq<Fate>, heading: Heading)
    requires Progress(e0, start, fate, heading) && |fate| < |e0|
    ensures Progress(e0, start, fate + [Skipped], heading)
  {
  }

  /** The state of the escape pass between two visits: the list and the
      enemies as `Tracks` and `Progress` say, `BaseDamage` lives lost per
      enemy removed, and the game over once an escape has left no lives. */
  ghost predicate PassInv(e0: seq<Enemy>, start: seq<Motion>, kept: seq<Enemy>, i: int, w: seq<Enemy>,
                          fate: seq<Fate>, heading: Heading, lives: int, lives0: int, over: bool, over0: bool)
    reads set k | 0 <= k < |e0| :: e0[k]
  {
    && Tracks(e0, kept, i, w, fate)
    && Progress(e0, start, fate, heading)
    && lives == lives0 - BaseDamage * (|e0| - |kept|)
    && over == (over0 || (|kept| < |e0| && lives <= 0))
  }

  /** One turn of the escape loop: the enemy at the iterator `i` moves; if
      it has reached the end, `BaseDamage` lives are lost, it is removed from
      the list, and the game is over when no lives are left. The iterator
      then moves one place on. */
  method Visit(kept: seq<Enemy>, i: nat, lives: int, over: bool, heading: Heading,
               ghost e0: seq<Enemy>, ghost start: seq<Motion>, ghost w: seq<Enemy>, ghost fate: seq<Fate>,
               ghost lives0: int, ghost over0: bool)
    returns (kept': seq<Enemy>, i': nat, lives': int, over': bool, ghost w': seq<Enemy>, ghost fate': seq<Fate>)
    requires Distinct(e0) && i < |kept|
    requires PassInv(e0, start, kept, i, w, fate, heading, lives, lives0, over, over0)
    modifies set k | 0 <= k < |e0| :: e0[k]
    ensures PassInv(e0, start, kept', i', w', fate', heading, lives', lives0, over', over0)
    ensures |fate| < |fate'|
  {
    kept', i', lives', over', w', fate' := kept, i, lives, over, w, fate;
    VisitStart(e0, kept, i, w, fate);
    ghost var j := |fate|;
    var e := kept[i];
    var reached := Advance(e, heading, e0, start, fate);
    if reached {
      lives' := lives - BaseDamage;
      if j + 1 < |e0| {
        EscapedSkip(e0, kept, i, w, fate);
        SkipNext(e0, start, fate + [Escaped], heading);
        w' := w + [e0[j + 1]];
        fate' := fate + [Escaped] + [Skipped];
      } else {
        EscapedLast(e0, kept, i, w, fate);
        fate' := fate + [Escaped];
      }
      kept' := kept[..i] + kept[i + 1..];
      if lives' <= 0 {
        over' := true;
      }
    } else {
      WalkedStep(e0, kept, i, w, fate);
      w' := w + [e];
      fate' := fate + [Walked];
    }
    i' := i + 1;
  }

  /** The escape loop of `on_update` over the enemy list `e0`, which it
      edits while walking it. Every enemy has a fate, paced as the iterator
      dictates; the list left is the enemies that did not escape, in order;
      each visited enemy took one step and escaped exactly when it reached
      the end, each skipped one is untouched; `BaseDamage` lives are lost per
      escape, and the game is over once an escape leaves no lives. */
  method EscapeLoop(e0: seq<Enemy>, lives0: int, over0: bool, heading: Heading)
    returns (kept: seq<Enemy>, lives: int, over: bool, ghost fate: seq<Fate>)
    requires Distinct(e0) && forall k | 0 <= k < |e0| :: e0[k].Valid()
    modifies set k | 0 <= k < |e0| :: e0[k]
    ensures forall k | 0 <= k < |e0| :: e0[k].Valid()
    ensures |fate| == |e0|
    ensures kept == Survivors(e0, fate, |e0|)
    ensures Paced(fate)
    ensures forall k | 0 <= k < |e0| :: VisitedFrom(e0[k], old(e0[k].State()), fate[k], heading)
    ensures lives == lives0 - BaseDamage * (|e0| - |kept|)
    ensures over == (over0 || (|kept| < |e0| && lives <= 0))
  {
    ghost var start := States(e0);
    kept, lives, over := e0, lives0, over0;
    fate := [];
    var i := 0;
    ghost var w: seq<Enemy> := [];
    while i < |kept|
      invariant PassInv(e0, start, kept, i, w, fate, heading, lives, lives0, over, over0)
      decreases |e0| - |fate|
    {
      kept, i, lives, over, w, fate := Visit(kept, i, lives, over, heading, e0, start, w, fate, lives0, over0);
    }
  }

  /** `EscapeLoop` over a ready board: the survivors are ready too, and
      each of them was on the board. */
  method EscapePass(e0: seq<Enemy>, lives0: int, over0: bool, heading: Heading)
    returns (kept: seq<Enemy>, lives: int, over: bool, ghost fate: seq<Fate>)
    requires EnemiesReady(e0)
    modifies set e | e in e0
    ensures EnemiesReady(kept) && forall e | e in kept :: e in e0
    ensures |fate| == |e0|
    ensures kept == Survivors(e0, fate, |e0|)
    ensures Paced(fate)
    ensures forall k | 0 <= k < |e0| :: VisitedFrom(e0[k], old(e0[k].State()), fate[k], heading)
    ensures lives == lives0 - BaseDamage * (|e0| - |kept|)
    ensures over == (over0 || (|kept| < |e0| && lives <= 0))
  {
    kept, lives, over, fate := EscapeLoop(e0, lives0, over0, heading);
    SurvivorsFrom(e0, fate, |fate|);
    assert e0[..|fate|] == e0;
    EnemiesReadyWithin(e0, kept);
  }

  // ---------------------------------------------------------------------
  // The tower pass
  // ---------------------------------------------------------------------

  /** The shots of all salvos, in tower order. */
  function Concat<T>(ss: seq<seq<T>>): (r: seq<T>)
    ensures forall k, j | 0 <= k < |ss| && 0 <= j < |ss[k]| :: ss[k][j] in r
    ensures forall x | x in r :: exists k | 0 <= k < |ss| :: x in ss[k]
  {
    if ss == [] then [] else Concat(ss[..|ss| - 1]) + ss[|ss| - 1]
  }

  /** What the tower pass leaves of tower `t`, whose timer read `timer0`
      and whose target was `target0`, having fired `salvo`. A tower left
      out of the frame's update only advances its timer. An updated tower
      either restarted its timer (it fired, or the tesla coil discharged) or
      advanced it without firing; it fires `ShotCount` shots at a time, and
      a tesla coil fires none. */
  predicate Clocked(t: Tower, timer0: real, target0: Enemy?, dt: real, salvo: seq<Projectile>, active: bool)
    reads t`fireTimer, t`target, t`level, t`missileCount
  {
    if !active then t.fireTimer == timer0 + dt && t.target == target0 && salvo == []
    else
      && (t.fireTimer == 0.0 || (t.fireTimer == timer0 + dt && salvo == []))
      && (salvo != [] ==> t.kind != Tesla && |salvo| == t.ShotCount())
  }

  /** The state of the tower pass after the first `i` towers: the shot
      list is the one the pass started with, `shots0`, followed by their
      salvos in order; those towers are `Clocked` and the others still have
      the timers `timers0` and targets `targets0` they started with; every
      enemy, which started in motion state `start[e]`, is `Unmoved`; in a
      frame without update no enemy changed and no roll was drawn. */
  ghost predicate TowerInv(towers: seq<Tower>, enemies: seq<Enemy>, i: int, shots0: seq<Projectile>, shots: seq<Projectile>,
                           salvos: seq<seq<Projectile>>, timers0: seq<real>, targets0: seq<Enemy?>,
                           start: map<Enemy, Motion>, drawn0: nat, rng: Rng, dt: real, active: bool)
    reads (set k | 0 <= k < |towers| :: towers[k]), (set e | e in enemies), rng
  {
    && 0 <= i <= |towers| == |timers0| == |targets0|
    && |salvos| == i && shots == shots0 + Concat(salvos)
    && Distinct(shots)
    && Clocks(towers, i, timers0, targets0, dt, salvos, active)
    && Settled(enemies, start)
    && (!active ==> shots == shots0 && rng.drawn == drawn0 && Still(enemies, start))
  }

  /** The towers before `i` are `Clocked`, the others still have the timers
      `timers0` and targets `targets0`. */
  predicate Clocks(towers: seq<Tower>, i: int, timers0: seq<real>, targets0: seq<Enemy?>, dt: real,
                   salvos: seq<seq<Projectile>>, active: bool)
    reads (set k | 0 <= k < |towers| :: towers[k])`fireTimer, (set k | 0 <= k < |towers| :: towers[k])`target
    reads (set k | 0 <= k < |towers| :: towers[k])`level, (set k | 0 <= k < |towers| :: towers[k])`missileCount
  {
    && 0 <= i <= |towers| == |timers0| == |targets0| && |salvos| == i
    && (forall k | 0 <= k < i :: Clocked(towers[k], timers0[k], targets0[k], dt, salvos[k], active))
    && (forall k | i <= k < |towers| :: towers[k].fireTimer == timers0[k] && towers[k].target == targets0[k])
  }

  /** Every enemy is still in its motion state `start[e]`. */
  ghost predicate Still(enemies: seq<Enemy>, start: map<Enemy, Motion>)
    reads set e | e in enemies
  {
    forall e | e in enemies :: e in start && e.State() == start[e]
  }

  /** Every enemy is valid and has neither moved nor come back to life
      since it was in motion state `start[e]`. */
  ghost predicate Settled(enemies: seq<Enemy>, start: map<Enemy, Motion>)
    reads set e | e in enemies
  {
    forall e | e in enemies :: e in start && e.Valid() && Unmoved(e, start[e])
  }

  /** A tower's `update`, as the tower pass sees it: the tower `towers[i]`
      takes its step (`TeslaStep` or `ShooterStep`), the other towers keep
      their timers and targets, and only the enemies it `discharged` into,
      at most `maxTargets` of the list, change. */
  method UpdateTower(t: Tower, ghost towers: seq<Tower>, ghost i: nat, dt: real, enemies: seq<Enemy>, rng: Rng,
                     heading: Heading, ghost start: map<Enemy, Motion>, ghost ds: seq<seq<Enemy>>)
    returns (salvo: seq<Projectile>, ghost discharged: seq<Enemy>)
    requires i < |towers| && t == towers[i] && Distinct(towers)
    requires forall k | 0 <= k < |towers| :: towers[k].Valid()
    requires Distinct(enemies) && Settled(enemies, start)
    requires DischargeInv(towers, enemies, i, ds, start)
    modifies t`fireTimer, t`target, (set e | e in enemies), rng
    ensures forall k | 0 <= k < |towers| :: towers[k].Valid()
    ensures Settled(enemies, start)
    ensures forall e | e in enemies :: Unmoved(e, old(e.State()))
    ensures forall k | 0 <= k < |towers| && k != i ::
              towers[k].fireTimer == old(towers[k].fireTimer) && towers[k].target == old(towers[k].target)
    ensures forall j | 0 <= j < |salvo| :: fresh(salvo[j])
    ensures Distinct(salvo)
    ensures Clocked(t, old(t.fireTimer), old(t.target), dt, salvo, true)
    ensures t.kind == Tesla ==> TeslaStep(t, dt, enemies, rng, salvo, discharged)
    ensures t.kind != Tesla ==> ShooterStep(t, dt, enemies, rng, heading, salvo) && discharged == []
    ensures Within(discharged, enemies, t.maxTargets)
    ensures forall e | e in enemies && e !in discharged :: e.State() == old(e.State())
    ensures DischargeInv(towers, enemies, i + 1, ds + [discharged], start)
  {
    salvo, discharged := t.Update(dt, enemies, rng, heading);
    t.ValidBounds();
    forall e | e in enemies && Spared(e, ds + [discharged])
      ensures e in start && e.State() == start[e]
    {
      SparedExtend(e, ds, discharged);
    }
  }

  /** One discharge list per tower: tower `k` discharged into at most
      `maxTargets` enemies of the list, and into none unless it is a tesla
      coil. */
  predicate Discharges(towers: seq<Tower>, enemies: seq<Enemy>, discharged: seq<seq<Enemy>>)
    reads (set k | 0 <= k < |towers| :: towers[k])`maxTargets
  {
    && |discharged| == |towers|
    && forall k | 0 <= k < |towers| ::
         Within(discharged[k], enemies, towers[k].maxTargets) && (towers[k].kind != Tesla ==> discharged[k] == [])
  }

  /** At most `bound` enemies, all from the list `enemies`. */
  predicate Within(discharged: seq<Enemy>, enemies: seq<Enemy>, bound: int) {
    |discharged| <= bound && forall e | e in discharged :: e in enemies
  }

  /** `e` is in none of the discharge lists `ds`. */
  predicate Spared(e: Enemy, ds: seq<seq<Enemy>>) {
    forall k | 0 <= k < |ds| :: e !in ds[k]
  }

  /** The discharges of the first `i` towers: tower `k` discharged into
      `ds[k]`, at most `maxTargets` enemies of the board and none at all
      when it shoots; an enemy in none of them is still in its motion state
      `start[e]`. */
  ghost predicate DischargeInv(towers: seq<Tower>, enemies: seq<Enemy>, i: int, ds: seq<seq<Enemy>>, start: map<Enemy, Motion>)
    reads (set k | 0 <= k < |towers| :: towers[k])`maxTargets, (set e | e in enemies)
  {
    && |ds| == i <= |towers|
    && (forall k | 0 <= k < i :: Within(ds[k], enemies, towers[k].maxTargets) && (towers[k].kind != Tesla ==> ds[k] == []))
    && (forall e | e in enemies && Spared(e, ds) :: e in start && e.State() == start[e])
  }

  /** An enemy spared by one more discharge list was spared by the earlier
      ones and is not in the new one. */
  lemma SparedExtend(e: Enemy, ds: seq<seq<Enemy>>, d: seq<Enemy>)
    requires Spared(e, ds + [d])
    ensures Spared(e, ds) && e !in d
  {
    assert (ds + [d])[|ds|] == d;
    forall k | 0 <= k < |ds| ensures e !in ds[k] {
      assert (ds + [d])[k] == ds[k];
    }
  }

  /** One turn of the tower loop: tower `i` updates (or only advances its
      timer) and its salvo joins the shot list. */
  method TowerVisit(towers: seq<Tower>, enemies: seq<Enemy>, i: nat, shots: seq<Projectile>, active: bool, dt: real,
                    rng: Rng, heading: Heading, ghost shots0: seq<Projectile>, ghost salvos: seq<seq<Projectile>>,
                    ghost timers0: seq<real>, ghost targets0: seq<Enemy?>, ghost start: map<Enemy, Motion>, ghost drawn0: nat,
                    ghost ds: seq<seq<Enemy>>)
    returns (shots': seq<Projectile>, salvo: seq<Projectile>, ghost salvos': seq<seq<Projectile>>, ghost discharged: seq<Enemy>)
    requires Distinct(towers) && Distinct(enemies) && i < |towers|
    requires forall k | 0 <= k < |towers| :: towers[k].Valid()
    requires TowerInv(towers, enemies, i, shots0, shots, salvos, timers0, targets0, start, drawn0, rng, dt, active)
    requires DischargeInv(towers, enemies, i, ds, start)
    modifies (set k | 0 <= k < |towers| :: towers[k])`fireTimer, (set k | 0 <= k < |towers| :: towers[k])`target
    modifies (set e | e in enemies), rng
    ensures forall k | 0 <= k < |towers| :: towers[k].Valid()
    ensures forall p | p in shots' :: p in shots || fresh(p)
    ensures TowerInv(towers, enemies, i + 1, shots0, shots', salvos', timers0, targets0, start, drawn0, rng, dt, active)
    ensures shots' == shots + salvo
    ensures active && towers[i].kind == Tesla ==> TeslaStep(towers[i], dt, enemies, rng, salvo, discharged)
    ensures active && towers[i].kind != Tesla ==> ShooterStep(towers[i], dt, enemies, rng, heading, salvo)
    ensures DischargeInv(towers, enemies, i + 1, ds + [discharged], start)
  {
    if active {
      shots', salvo, salvos', discharged := ActiveVisit(towers, enemies, i, shots, dt, rng, heading, shots0, salvos, timers0, targets0, start, drawn0, ds);
    } else {
      IdleVisit(towers[i], towers, enemies, i, shots, dt, rng, shots0, salvos, timers0, targets0, start, drawn0, ds);
      shots', salvo, salvos', discharged := shots, [], salvos + [[]], [];
      assert shots' == shots + salvo;
    }
  }

  /** The turn of tower `i` in a frame with update: it runs `update`. */
  method ActiveVisit(towers: seq<Tower>, enemies: seq<Enemy>, i: nat, shots: seq<Projectile>, dt: real,
                     rng: Rng, heading: Heading, ghost shots0: seq<Projectile>, ghost salvos: seq<seq<Projectile>>,
                     ghost timers0: seq<real>, ghost targets0: seq<Enemy?>, ghost start: map<Enemy, Motion>, ghost drawn0: nat,
                     ghost ds: seq<seq<Enemy>>)
    returns (shots': seq<Projectile>, salvo: seq<Projectile>, ghost salvos': seq<seq<Projectile>>, ghost discharged: seq<Enemy>)
    requires Distinct(towers) && Distinct(enemies) && i < |towers|
    requires forall k | 0 <= k < |towers| :: towers[k].Valid()
    requires TowerInv(towers, enemies, i, shots0, shots, salvos, timers0, targets0, start, drawn0, rng, dt, true)
    requires DischargeInv(towers, enemies, i, ds, start)
    modifies (set k | 0 <= k < |towers| :: towers[k])`fireTimer, (set k | 0 <= k < |towers| :: towers[k])`target
    modifies (set e | e in enemies), rng
    ensures forall k | 0 <= k < |towers| :: towers[k].Valid()
    ensures forall p | p in shots' :: p in shots || fresh(p)
    ensures TowerInv(towers, enemies, i + 1, shots0, shots', salvos', timers0, targets0, start, drawn0, rng, dt, true)
    ensures shots' == shots + salvo
    ensures towers[i].kind == Tesla ==> TeslaStep(towers[i], dt, enemies, rng, salvo, discharged)
    ensures towers[i].kind != Tesla ==> ShooterStep(towers[i], dt, enemies, rng, heading, salvo) && discharged == []
    ensures DischargeInv(towers, enemies, i + 1, ds + [discharged], start)
  {
    salvo, discharged := UpdateTower(towers[i], towers, i, dt, enemies, rng, heading, start, ds);
    shots' := shots + salvo;
    salvos' := salvos + [salvo];
    Appended(shots0, shots, salvos, salvo);
    forall k | 0 <= k < i
      ensures Clocked(towers[k], timers0[k], targets0[k], dt, salvos'[k], true)
    {
      assert towers[k].fireTimer == old(towers[k].fireTimer) && towers[k].target == old(towers[k].target);
    }
  }

  /** A salvo of new shots added to the shot list keeps it distinct and
      the concatenation of the salvos so far. */
  lemma Appended(shots0: seq<Projectile>, shots: seq<Projectile>, salvos: seq<seq<Projectile>>, salvo: seq<Projectile>)
    requires shots == shots0 + Concat(salvos) && Distinct(shots) && Distinct(salvo)
    requires forall x | x in salvo :: x !in shots
    ensures shots + salvo == shots0 + Concat(salvos + [salvo]) && Distinct(shots + salvo)
  {
    assert (salvos + [salvo])[..|salvos|] == salvos;
  }

  /** The turn of tower `i` in a frame without update: its timer advances. */
  method IdleVisit(t: Tower, towers: seq<Tower>, enemies: seq<Enemy>, i: nat, shots: seq<Projectile>, dt: real, rng: Rng,
                   ghost shots0: seq<Projectile>, ghost salvos: seq<seq<Projectile>>,
                   ghost timers0: seq<real>, ghost targets0: seq<Enemy?>, ghost start: map<Enemy, Motion>, ghost drawn0: nat,
                   ghost ds: seq<seq<Enemy>>)
    requires Distinct(towers) && i < |towers| && t == towers[i] && forall k | 0 <= k < |towers| :: towers[k].Valid()
    requires TowerInv(towers, enemies, i, shots0, shots, salvos, timers0, targets0, start, drawn0, rng, dt, false)
    requires DischargeInv(towers, enemies, i, ds, start)
    modifies t`fireTimer
    ensures forall k | 0 <= k < |towers| :: towers[k].Valid()
    ensures TowerInv(towers, enemies, i + 1, shots0, shots, salvos + [[]], timers0, targets0, start, drawn0, rng, dt, false)
    ensures DischargeInv(towers, enemies, i + 1, ds + [[]], start)
  {
    IdleTimer(t, towers, dt);
    Appended(shots0, shots, salvos, []);
    assert shots + [] == shots;
    forall k | 0 <= k < |towers| && k != i
      ensures towers[k].fireTimer == old(towers[k].fireTimer) && towers[k].target == old(towers[k].target)
    {
      assert towers[k] != t;
    }
    forall e | e in enemies && Spared(e, ds + [[]])
      ensures e in start && e.State() == start[e]
    {
      SparedExtend(e, ds, []);
    }
  }

  /** Without update a tower only advances its fire timer by `dt`, which
      leaves every tower valid. */
  method IdleTimer(t: Tower, towers: seq<Tower>, dt: real)
    requires t in towers && forall k | 0 <= k < |towers| :: towers[k].Valid()
    modifies t`fireTimer
    ensures t.fireTimer == old(t.fireTimer) + dt && t.fireRate > 0.0
    ensures forall k | 0 <= k < |towers| :: towers[k].Valid()
  {
    t.ValidBounds();
    t.fireTimer := t.fireTimer + dt;
  }

  /** The enemies on the board: no enemy twice, each valid and of a level
      its stats are defined for. */
  ghost predicate EnemiesReady(enemies: seq<Enemy>)
    reads set e | e in enemies
  {
    Distinct(enemies) && forall e | e in enemies :: e.Valid() && e.level >= 0
  }

  /** The towers on the board: no tower twice, each valid. */
  ghost predicate TowersReady(towers: seq<Tower>)
    reads set t | t in towers
  {
    Distinct(towers) && forall t {:trigger t.Valid()} | t in towers :: t.Valid()
  }

  /** Distinct enemies drawn from a list of valid enemies of the waves are
      ready. */
  lemma EnemiesReadyWithin(e0: seq<Enemy>, kept: seq<Enemy>)
    requires forall k | 0 <= k < |e0| :: e0[k].Valid() && e0[k].level >= 0
    requires Distinct(kept) && forall x | x in kept :: x in e0
    ensures EnemiesReady(kept)
  {
  }

  /** Distinct valid towers are ready. */
  lemma TowersReadyFrom(towers: seq<Tower>)
    requires Distinct(towers) && forall k | 0 <= k < |towers| :: towers[k].Valid()
    ensures TowersReady(towers)
  {
  }

  /** The tower loop of `on_update`: with `active` (every second frame, and
      every frame while fewer than 20 enemies are on the board) each tower
      runs `update` in list order, its salvo joining the shot list;
      otherwise each tower only advances its fire timer by `dt`. Towers
      never move an enemy nor bring one back to life; a frame without update
      touches no enemy and draws no roll. Only tesla coils touch enemies:
      tower `k` discharges into the list `discharged[k]`, empty for a tower
      that shoots, of at most `maxTargets` enemies of the board, and an
      enemy in no such list is unchanged. */
  method TowerPass(towers: seq<Tower>, enemies: seq<Enemy>, shots0: seq<Projectile>, active: bool, dt: real,
                   rng: Rng, heading: Heading)
    returns (shots: seq<Projectile>, ghost salvos: seq<seq<Projectile>>, ghost discharged: seq<seq<Enemy>>)
    requires TowersReady(towers) && EnemiesReady(enemies) && Distinct(shots0)
    modifies (set k | 0 <= k < |towers| :: towers[k])`fireTimer, (set k | 0 <= k < |towers| :: towers[k])`target
    modifies (set e | e in enemies), rng
    ensures TowersReady(towers) && EnemiesReady(enemies)
    ensures forall p | p in shots :: p in shots0 || fresh(p)
    ensures |salvos| == |towers| && shots == shots0 + Concat(salvos) && Distinct(shots)
    ensures forall k | 0 <= k < |towers| ::
              Clocked(towers[k], old(towers[k].fireTimer), old(towers[k].target), dt, salvos[k], active)
    ensures forall e | e in enemies :: Unmoved(e, old(e.State()))
    ensures !active ==> shots == shots0 && rng.drawn == old(rng.drawn) && forall e | e in enemies :: e.State() == old(e.State())
    ensures Discharges(towers, enemies, discharged)
    ensures forall e | e in enemies && Spared(e, discharged) :: e.State() == old(e.State())
  {
    ghost var timers0 := seq(|towers|, k requires 0 <= k < |towers| reads towers => towers[k].fireTimer);
    ghost var targets0 := seq(|towers|, k requires 0 <= k < |towers| reads towers => towers[k].target);
    ghost var start := map e | e in enemies :: e.State();
    shots, salvos, discharged := TowerLoop(towers, enemies, shots0, active, dt, rng, heading, timers0, targets0, start);
  }

  /** The loop of `TowerPass`, from the timers `timers0`, targets `targets0`
      and enemy states `start` the towers and enemies had on entry. */
  method TowerLoop(towers: seq<Tower>, enemies: seq<Enemy>, shots0: seq<Projectile>, active: bool, dt: real,
                   rng: Rng, heading: Heading, ghost timers0: seq<real>, ghost targets0: seq<Enemy?>,
                   ghost start: map<Enemy, Motion>)
    returns (shots: seq<Projectile>, ghost salvos: seq<seq<Projectile>>, ghost discharged: seq<seq<Enemy>>)
    requires Distinct(towers) && Distinct(enemies) && forall k | 0 <= k < |towers| :: towers[k].Valid()
    requires TowerInv(towers, enemies, 0, shots0, shots0, [], timers0, targets0, start, rng.drawn, rng, dt, active)
    requires DischargeInv(towers, enemies, 0, [], start)
    modifies (set k | 0 <= k < |towers| :: towers[k])`fireTimer, (set k | 0 <= k < |towers| :: towers[k])`target
    modifies (set e | e in enemies), rng
    ensures forall k | 0 <= k < |towers| :: towers[k].Valid()
    ensures forall p | p in shots :: p in shots0 || fresh(p)
    ensures TowerInv(towers, enemies, |towers|, shots0, shots, salvos, timers0, targets0, start, old(rng.drawn), rng, dt, active)
    ensures DischargeInv(towers, enemies, |towers|, discharged, start)
  {
    shots, salvos, discharged := shots0, [], [];
    for i := 0 to |towers|
      invariant forall k | 0 <= k < |towers| :: towers[k].Valid()
      invariant forall p | p in shots :: p in shots0 || fresh(p)
      invariant TowerInv(towers, enemies, i, shots0, shots, salvos, timers0, targets0, start, old(rng.drawn), rng, dt, active)
      invariant DischargeInv(towers, enemies, i, discharged, start)
    {
      ghost var d;
      var salvo;
      shots, salvo, salvos, d := TowerVisit(towers, enemies, i, shots, active, dt, rng, heading, shots0, salvos, timers0, targets0, start, old(rng.drawn), discharged);
      discharged := discharged + [d];
    }
  }

  // ---------------------------------------------------------------------
  // The projectile pass
  // ---------------------------------------------------------------------

  /** The collision test of `check_for_collision_with_list`: does a shot at
      the first point touch an enemy of the given archetype standing at the
      second? */
  type Collides = (Point, EnemyType, Point) -> bool

  /** The hit list of a shot at `at`: the enemies it touches, in list order. */
  function Collisions(at: Point, enemies: seq<Enemy>, collides: Collides): (r: seq<Enemy>)
    reads enemies
    ensures forall x | x in r :: x in enemies && collides(at, x.kind, x.pos)
    ensures forall x | x in enemies && collides(at, x.kind, x.pos) :: x in r
    ensures Distinct(enemies) ==> Distinct(r)
  {
    if enemies == [] then []
    else
      var n := |enemies| - 1;
      var e := enemies[n];
      var r := Collisions(at, enemies[..n], collides);
      assert forall x | x in r :: x in enemies[..n];
      r + (if collides(at, e.kind, e.pos) then [e] else [])
  }

  /** `s` without the elements flagged in `gone`, order kept. */
  function Remaining<T>(s: seq<T>, gone: seq<bool>): (r: seq<T>)
    requires |gone| == |s|
    ensures |r| <= |s|
  {
    if s == [] then [] else (if gone[0] then [] else [s[0]]) + Remaining(s[1..], gone[1..])
  }

  /** What remains is exactly what is not flagged. */
  lemma {:induction false} RemainingMembers<T>(s: seq<T>, gone: seq<bool>, x: T)
    requires |gone| == |s|
    ensures x in Remaining(s, gone) <==> exists k | 0 <= k < |s| :: s[k] == x && !gone[k]
  {
    if s != [] {
      RemainingMembers(s[1..], gone[1..], x);
      if x in Remaining(s[1..], gone[1..]) {
        var k :| 0 <= k < |s| - 1 && s[1..][k] == x && !gone[1..][k];
        assert s[k + 1] == x && !gone[k + 1];
      }
      if exists k | 0 <= k < |s| :: s[k] == x && !gone[k] {
        var k :| 0 <= k < |s| && s[k] == x && !gone[k];
        if k > 0 {
          assert s[1..][k - 1] == x && !gone[1..][k - 1];
        }
      }
    }
  }

  /** Nothing flagged: everything remains. */
  lemma {:induction false} RemainingAll<T>(s: seq<T>, gone: seq<bool>)
    requires |gone| == |s| && forall k | 0 <= k < |s| :: !gone[k]
    ensures Remaining(s, gone) == s
  {
    if s != [] {
      RemainingAll(s[1..], gone[1..]);
    }
  }

  /** `list.remove(x)`: the first occurrence of `x` taken out. */
  function Remove<T(==)>(s: seq<T>, x: T): (r: seq<T>)
  {
    if s == [] then [] else if s[0] == x then s[1..] else [s[0]] + Remove(s[1..], x)
  }

  /** In a list without repetitions, removing a remaining element flags it. */
  lemma {:induction false} RemoveRemaining<T>(s: seq<T>, gone: seq<bool>, k: nat)
    requires |gone| == |s| && Distinct(s) && k < |s| && !gone[k]
    ensures Remove(Remaining(s, gone), s[k]) == Remaining(s, gone[k := true])
  {
    assert gone[k := true][1..] == if k == 0 then gone[1..] else gone[1..][k - 1 := true];
    if k > 0 {
      assert s[1..][k - 1] == s[k] && s[0] != s[k];
      assert Distinct(s[1..]);
      RemoveRemaining(s[1..], gone[1..], k - 1);
      var rest := Remaining(s[1..], gone[1..]);
      if !gone[0] {
        var g := gone[k := true];
        calc {
          Remove(Remaining(s, gone), s[k]);
          Remove([s[0]] + rest, s[k]);
          { assert ([s[0]] + rest)[0] == s[0] && ([s[0]] + rest)[1..] == rest; }
          [s[0]] + Remove(rest, s[k]);
          [s[0]] + Remaining(s[1..], g[1..]);
          Remaining(s, g);
        }
      } else {
        assert Remaining(s, gone) == rest && Remaining(s, gone[k := true]) == Remaining(s[1..], gone[1..][k - 1 := true]);
      }
    }
  }

  /** The money the flagged enemies pay. */
  function Bounties(s: seq<Enemy>, gone: seq<bool>): int
    requires |gone| == |s|
  {
    if s == [] then 0 else (if gone[0] then s[0].bounty else 0) + Bounties(s[1..], gone[1..])
  }

  lemma {:induction false} BountiesFlag(s: seq<Enemy>, gone: seq<bool>, k: nat)
    requires |gone| == |s| && k < |s| && !gone[k]
    ensures Bounties(s, gone[k := true]) == Bounties(s, gone) + s[k].bounty
  {
    assert gone[k := true][1..] == if k == 0 then gone[1..] else gone[1..][k - 1 := true];
    if k > 0 {
      BountiesFlag(s[1..], gone[1..], k - 1);
    }
  }

  /** Nothing flagged: nothing paid. */
  lemma {:induction false} BountiesNone(s: seq<Enemy>, gone: seq<bool>)
    requires |gone| == |s| && forall k | 0 <= k < |s| :: !gone[k]
    ensures Bounties(s, gone) == 0
  {
    if s != [] {
      BountiesNone(s[1..], gone[1..]);
    }
  }

  /** Enemies of the waves (level at least 0) never pay a negative bounty. */
  lemma {:induction false} BountiesNonNegative(s: seq<Enemy>, gone: seq<bool>)
    requires |gone| == |s| && forall k | 0 <= k < |s| :: s[k].Valid() && s[k].level >= 0
    ensures Bounties(s, gone) >= 0
  {
    if s != [] {
      BountiesNonNegative(s[1..], gone[1..]);
    }
  }

  /** The state of the projectile pass over the enemies `e0`, which started
      in motion states `start`: the list holds the enemies not `killed`, in
      order; an enemy is killed exactly when it was alive and is dead now;
      no enemy moved; the money grew by the killed enemies' bounties, the
      score by ten times as much. */
  ghost predicate Toll(e0: seq<Enemy>, start: seq<Motion>, killed: seq<bool>, enemies: seq<Enemy>,
                       money: int, money0: int, score: int, score0: int)
    reads set k | 0 <= k < |e0| :: e0[k]
  {
    && |killed| == |e0| == |start|
    && enemies == Remaining(e0, killed)
    && (forall k | 0 <= k < |e0| :: e0[k].Valid() && Unmoved(e0[k], start[k]))
    && (forall k | 0 <= k < |e0| :: killed[k] == (start[k].alive && !e0[k].alive))
    && money == money0 + Bounties(e0, killed)
    && score == score0 + 10 * Bounties(e0, killed)
  }

  /** One turn of the hit loop, on the enemy `e`, the `k`-th of `e0`, which
      is on the list: a living enemy takes the shot's damage through
      `take_damage`; if that kills it, its bounty is paid, ten times the
      bounty is scored, and it leaves the list. A dead enemy is left alone. */
  method Hit(e: Enemy, damage: real, critical: bool, rng: Rng, enemies: seq<Enemy>, money: int, score: int,
             ghost e0: seq<Enemy>, ghost start: seq<Motion>, ghost killed: seq<bool>,
             ghost money0: int, ghost score0: int, ghost k: nat)
    returns (enemies': seq<Enemy>, money': int, score': int, ghost killed': seq<bool>)
    requires Distinct(e0) && k < |e0| == |killed| && e == e0[k] && !killed[k]
    requires Toll(e0, start, killed, enemies, money, money0, score, score0)
    modifies e, rng
    ensures Toll(e0, start, killed', enemies', money', money0, score', score0)
    ensures killed' == killed || killed' == killed[k := true]
    ensures old(e.alive) ==> rng.drawn == old(rng.drawn) + 1 && Hurt(e, damage, rng.source(old(rng.drawn)))
    ensures !old(e.alive) ==> rng.drawn == old(rng.drawn) && e.State() == old(e.State())
  {
    enemies', money', score', killed' := enemies, money, score, killed;
    if e.alive {
      var died, _ := e.TakeDamage(damage, critical, rng);
      if died {
        money' := money + e.bounty;
        score' := score + e.bounty * 10;
        RemoveRemaining(e0, killed, k);
        BountiesFlag(e0, killed, k);
        enemies' := Remove(enemies, e);
        killed' := killed[k := true];
      }
    }
  }

  /** `Toll`, the hits from the `m`-th on are still on the list, and the
      enemies killed since `killed0` are among the first `m` hits. */
  ghost predicate StrikeInv(e0: seq<Enemy>, start: seq<Motion>, killed0: seq<bool>, killed: seq<bool>,
                            enemies: seq<Enemy>, money: int, money0: int, score: int, score0: int,
                            hits: seq<Enemy>, m: int)
    reads set k | 0 <= k < |e0| :: e0[k]
  {
    && Toll(e0, start, killed, enemies, money, money0, score, score0)
    && 0 <= m <= |hits| && |killed0| == |killed|
    && (forall n | m <= n < |hits| :: hits[n] in enemies)
    && (forall k | 0 <= k < |killed| && killed[k] != killed0[k] :: !killed0[k] && e0[k] in hits[..m])
  }

  /** One turn of the hit loop, as `Hit` on the `m`-th hit. */
  method StrikeVisit(hits: seq<Enemy>, m: nat, damage: real, critical: bool, rng: Rng,
                     enemies: seq<Enemy>, money: int, score: int,
                     ghost e0: seq<Enemy>, ghost start: seq<Motion>, ghost killed0: seq<bool>, ghost killed: seq<bool>,
                     ghost money0: int, ghost score0: int)
    returns (enemies': seq<Enemy>, money': int, score': int, ghost killed': seq<bool>)
    requires Distinct(e0) && Distinct(hits) && m < |hits|
    requires StrikeInv(e0, start, killed0, killed, enemies, money, money0, score, score0, hits, m)
    modifies (set k | 0 <= k < |e0| :: e0[k]), rng
    ensures StrikeInv(e0, start, killed0, killed', enemies', money', money0, score', score0, hits, m + 1)
    ensures old(hits[m].alive) ==>
              rng.drawn == old(rng.drawn) + 1 && Took(hits[m], old(hits[m].State()), hits[m].State(), damage, rng.source(old(rng.drawn)))
    ensures !old(hits[m].alive) ==> rng.drawn == old(rng.drawn) && hits[m].State() == old(hits[m].State())
    ensures forall n | 0 <= n < |hits| && n != m :: hits[n].State() == old(hits[n].State())
    ensures forall k | 0 <= k < |e0| && e0[k] != hits[m] :: e0[k].State() == old(e0[k].State())
  {
    var e := hits[m];
    RemainingMembers(e0, killed, e);
    ghost var k :| 0 <= k < |e0| && e0[k] == e && !killed[k];
    enemies', money', score', killed' := Hit(e, damage, critical, rng, enemies, money, score, e0, start, killed, money0, score0, k);
    forall n | m + 1 <= n < |hits| ensures hits[n] in enemies' {
      RemainingMembers(e0, killed, hits[n]);
      var k' :| 0 <= k' < |e0| && e0[k'] == hits[n] && !killed[k'];
      assert k' != k;
      RemainingMembers(e0, killed', hits[n]);
    }
    assert hits[..m + 1] == hits[..m] + [e];
  }

  /** How many of the motion states `ms` are alive. */
  function Living(ms: seq<Motion>): nat {
    if ms == [] then 0 else Living(ms[..|ms| - 1]) + (if ms[|ms| - 1].alive then 1 else 0)
  }

  /** What the hit loop of one shot did to its hit list `hits`, which were
      in motion states `ms` before, with `d0` rolls drawn: each hit that was
      alive took `damage` through `take_damage` with the next roll (so the
      `n`-th hit drew roll number `d0 + Living(ms[..n])`), each dead one was
      left alone, and one roll was drawn per living hit. */
  ghost predicate Struck(hits: seq<Enemy>, ms: seq<Motion>, d0: nat, damage: real, rng: Rng)
    reads rng, set e | e in hits
  {
    && |ms| == |hits|
    && rng.drawn == d0 + Living(ms)
    && (forall n | 0 <= n < |hits| :: ms[n].alive ==> Took(hits[n], ms[n], hits[n].State(), damage, rng.source(d0 + Living(ms[..n]))))
    && (forall n | 0 <= n < |hits| :: !ms[n].alive ==> hits[n].State() == ms[n])
  }

  /** `Struck` for the first `m` hits, the others still in their states `ms`. */
  ghost predicate StruckUpTo(hits: seq<Enemy>, ms: seq<Motion>, d0: nat, damage: real, rng: Rng, m: int)
    reads rng, set e | e in hits
  {
    StruckSoFar(hits, ms, States(hits), d0, rng.drawn, rng.source, damage, m)
  }

  /** `StruckUpTo` on values: the hits are now in states `now`, and
      `drawn` rolls of `source` have been drawn. */
  predicate StruckSoFar(hits: seq<Enemy>, ms: seq<Motion>, now: seq<Motion>, d0: nat, drawn: nat,
                        source: nat -> real, damage: real, m: int)
  {
    && |ms| == |hits| == |now| && 0 <= m <= |hits|
    && drawn == d0 + Living(ms[..m])
    && (forall n | 0 <= n < m :: ms[n].alive ==> Took(hits[n], ms[n], now[n], damage, source(d0 + Living(ms[..n]))))
    && (forall n | 0 <= n < m :: !ms[n].alive ==> now[n] == ms[n])
    && (forall n | m <= n < |hits| :: now[n] == ms[n])
  }

  /** One more hit: the `m`-th, alone in changing, takes the next roll if
      it was alive and is left alone otherwise. */
  lemma StruckStep(hits: seq<Enemy>, ms: seq<Motion>, before: seq<Motion>, after: seq<Motion>, d0: nat,
                   drawn: nat, drawn': nat, source: nat -> real, damage: real, m: nat)
    requires StruckSoFar(hits, ms, before, d0, drawn, source, damage, m) && m < |hits|
    requires |after| == |before| && forall n | 0 <= n < |after| && n != m :: after[n] == before[n]
    requires ms[m].alive ==> drawn' == drawn + 1 && Took(hits[m], ms[m], after[m], damage, source(drawn))
    requires !ms[m].alive ==> drawn' == drawn && after[m] == ms[m]
    ensures StruckSoFar(hits, ms, after, d0, drawn', source, damage, m + 1)
  {
    assert ms[..m + 1][..m] == ms[..m];
  }

  /** Every enemy of `e0` off the hit list `hits` is still in its state in `es`. */
  ghost predicate Untouched(e0: seq<Enemy>, hits: seq<Enemy>, es: seq<Motion>)
    reads set k | 0 <= k < |e0| :: e0[k]
  {
    |es| == |e0| && forall k | 0 <= k < |e0| && e0[k] !in hits :: e0[k].State() == es[k]
  }

  /** All hits done: the hit loop `Struck`. */
  lemma StruckAll(hits: seq<Enemy>, ms: seq<Motion>, d0: nat, damage: real, rng: Rng)
    requires StruckUpTo(hits, ms, d0, damage, rng, |hits|)
    ensures Struck(hits, ms, d0, damage, rng)
  {
    assert ms[..|hits|] == ms;
  }

  /** `StrikeVisit` on the `m`-th hit extends `StruckUpTo` by that hit;
      only that hit changes. */
  method StrikeTurn(hits: seq<Enemy>, m: nat, damage: real, critical: bool, rng: Rng,
                    enemies: seq<Enemy>, money: int, score: int,
                    ghost e0: seq<Enemy>, ghost start: seq<Motion>, ghost killed0: seq<bool>, ghost killed: seq<bool>,
                    ghost money0: int, ghost score0: int, ghost ms: seq<Motion>, ghost d0: nat)
    returns (enemies': seq<Enemy>, money': int, score': int, ghost killed': seq<bool>)
    requires Distinct(e0) && Distinct(hits) && m < |hits|
    requires StrikeInv(e0, start, killed0, killed, enemies, money, money0, score, score0, hits, m)
    requires StruckUpTo(hits, ms, d0, damage, rng, m)
    modifies (set k | 0 <= k < |e0| :: e0[k]), rng
    ensures StrikeInv(e0, start, killed0, killed', enemies', money', money0, score', score0, hits, m + 1)
    ensures StruckUpTo(hits, ms, d0, damage, rng, m + 1)
    ensures forall k | 0 <= k < |e0| && e0[k] != hits[m] :: e0[k].State() == old(e0[k].State())
  {
    ghost var before, bd := States(hits), rng.drawn;
    enemies', money', score', killed' := StrikeVisit(hits, m, damage, critical, rng, enemies, money, score, e0, start, killed0, killed, money0, score0);
    ghost var after := States(hits);
    StruckStep(hits, ms, before, after, d0, bd, rng.drawn, rng.source, damage, m);
  }

  /** The hit loop of the projectile loop: every enemy of the hit list, in
      order, is `Hit` by the shot (`Struck`); the enemies it kills are among
      the hits, and no other enemy changes. */
  method Strike(hits: seq<Enemy>, damage: real, critical: bool, rng: Rng,
                enemies: seq<Enemy>, money: int, score: int,
                ghost e0: seq<Enemy>, ghost start: seq<Motion>, ghost killed: seq<bool>,
                ghost money0: int, ghost score0: int)
    returns (enemies': seq<Enemy>, money': int, score': int, ghost killed': seq<bool>)
    requires Distinct(e0) && Distinct(hits)
    requires StrikeInv(e0, start, killed, killed, enemies, money, money0, score, score0, hits, 0)
    modifies (set k | 0 <= k < |e0| :: e0[k]), rng
    ensures Toll(e0, start, killed', enemies', money', money0, score', score0)
    ensures |killed'| == |killed|
    ensures forall k | 0 <= k < |killed| && killed'[k] != killed[k] :: !killed[k] && e0[k] in hits
    ensures Struck(hits, old(States(hits)), old(rng.drawn), damage, rng)
    ensures forall k | 0 <= k < |e0| && e0[k] !in hits :: e0[k].State() == old(e0[k].State())
  {
    ghost var ms, d0, es := States(hits), rng.drawn, States(e0);
    enemies', money', score', killed' := enemies, money, score, killed;
    for m := 0 to |hits|
      invariant StrikeInv(e0, start, killed, killed', enemies', money', money0, score', score0, hits, m)
      invariant StruckUpTo(hits, ms, d0, damage, rng, m)
      invariant Untouched(e0, hits, es)
    {
      ghost var now := States(e0);
      enemies', money', score', killed' := StrikeTurn(hits, m, damage, critical, rng, enemies', money', score', e0, start, killed, killed', money0, score0, ms, d0);
      forall k | 0 <= k < |e0| && e0[k] !in hits ensures e0[k].State() == es[k] {
        assert e0[k].State() == now[k];
      }
    }
    assert hits[..|hits|] == hits;
    StruckAll(hits, ms, d0, damage, rng);
  }

  /** The flight of one shot, `update`, then its retarget: a shot whose
      target has died turns to the nearest living enemy on the list, at any
      distance, and re-aims with `update_movement`; with no living enemy left
      it keeps its dead target. */
  method Fly(p: Projectile, enemies: seq<Enemy>, turn: Turn, heading: Heading) returns (ghost k: Option<nat>)
    modifies p
    ensures p.homingStrength == old(p.homingStrength)
    ensures var v := if p.homing && old(p.target) != null && old(p.target.health) > 0.0
                     then turn(old(p.vel), old(p.pos), old(p.target.pos), p.speed, p.homingStrength)
                     else old(p.vel);
            var lost := old(p.target) != null && !old(p.target.alive);
            && p.pos == Add(old(p.pos), v)
            && (lost ==> IsNearest(p.pos, enemies, None, false, k))
            && p.target == (if lost && k.Some? then enemies[k.value] else old(p.target))
            && p.vel == (if lost && k.Some? && p.target.health > 0.0 then heading(p.pos, p.target.pos, p.speed) else v)
  {
    k := None;
    p.Update(turn);
    if p.target != null && !p.target.alive {
      var closest := Nearest(p.pos, enemies, None, false);
      if closest.Some? {
        p.target := enemies[closest.value];
        p.UpdateMovement(heading);
      }
      k := closest;
    }
  }

  /** With `s` distinct, so is what remains of it. */
  lemma {:induction false} RemainingDistinct<T>(s: seq<T>, gone: seq<bool>)
    requires |gone| == |s| && Distinct(s)
    ensures Distinct(Remaining(s, gone))
  {
    if s != [] {
      assert Distinct(s[1..]);
      RemainingDistinct(s[1..], gone[1..]);
      RemainingMembers(s[1..], gone[1..], s[0]);
    }
  }

  /** The state of the projectile pass before the `j`-th shot of `p0`: the
      shots `struck` have left the list, which keeps the others in order;
      none from the `j`-th on has struck yet; the enemies are as `Toll` says;
      and a shot that stayed touches no enemy still on the list. */
  ghost predicate ShotInv(p0: seq<Projectile>, struck: seq<bool>, projectiles: seq<Projectile>, j: int,
                          e0: seq<Enemy>, start: seq<Motion>, killed: seq<bool>, enemies: seq<Enemy>,
                          money: int, money0: int, score: int, score0: int, collides: Collides)
    reads (set n | 0 <= n < j && n < |p0| :: p0[n]), (set k | 0 <= k < |e0| :: e0[k])
  {
    && Toll(e0, start, killed, enemies, money, money0, score, score0)
    && |struck| == |p0| && 0 <= j <= |p0|
    && projectiles == Remaining(p0, struck)
    && (forall n | j <= n < |p0| :: !struck[n])
    && (forall n, k | 0 <= n < j && 0 <= k < |e0| && !struck[n] && !killed[k] ::
          !collides(p0[n].pos, e0[k].kind, start[k].pos))
  }

  /** One turn of the projectile loop, on the `j`-th shot: it flies (as
      `Fly` says, from the state the turn began in, `k` being the enemy it
      turns to when its target has died); if it then touches any enemy on
      the list, it strikes them all (`Struck`) and leaves the list; no other
      enemy changes. */
  method ProjectileVisit(p0: seq<Projectile>, j: nat, projectiles: seq<Projectile>, ghost struck: seq<bool>,
                         enemies: seq<Enemy>, money: int, score: int, rng: Rng,
                         ghost e0: seq<Enemy>, ghost start: seq<Motion>, ghost killed: seq<bool>,
                         ghost money0: int, ghost score0: int,
                         turn: Turn, heading: Heading, collides: Collides)
    returns (projectiles': seq<Projectile>, ghost struck': seq<bool>,
             enemies': seq<Enemy>, money': int, score': int, ghost killed': seq<bool>,
             hits: seq<Enemy>, ghost k: Option<nat>, ghost at: Point, ghost vel: Point)
    requires Distinct(p0) && Distinct(e0) && j < |p0|
    requires ShotInv(p0, struck, projectiles, j, e0, start, killed, enemies, money, money0, score, score0, collides)
    modifies p0[j], (set k | 0 <= k < |e0| :: e0[k]), rng
    ensures ShotInv(p0, struck', projectiles', j + 1, e0, start, killed', enemies', money', money0, score', score0, collides)
    ensures p0[j].pos == at && p0[j].vel == vel && p0[j].homingStrength == old(p0[j].homingStrength)
    ensures var p := p0[j];
            var v := if p.homing && old(p.target) != null && old(p.target.health) > 0.0
                     then turn(old(p.vel), old(p.pos), old(p.target.pos), p.speed, old(p.homingStrength))
                     else old(p.vel);
            var lost := old(p.target) != null && !old(p.target.alive);
            var nearest := if k.Some? then Some(k.value) else None;
            && at == Add(old(p.pos), v)
            && (lost ==> old(IsNearest(at, enemies, None, false, nearest)))
            && p.target == (if lost && k.Some? then enemies[k.value] else old(p.target))
            && vel == (if lost && k.Some? && old(enemies[k.value].health) > 0.0
                       then heading(at, old(enemies[k.value].pos), p.speed) else v)
    ensures hits == old(Collisions(at, enemies, collides))
    ensures struck' == (if hits == [] then struck else struck[j := true])
    ensures Struck(hits, old(States(hits)), old(rng.drawn), p0[j].damage, rng)
    ensures forall n | 0 <= n < |e0| && e0[n] !in hits :: e0[n].State() == old(e0[n].State())
  {
    k, at, vel := Launch(p0, j, enemies, turn, heading, projectiles, struck, e0, start, killed, money, money0, score, score0, collides);
    // The flight moved the shot only: what the strike starts from is as it was.
    ghost var target := p0[j].target;
    ghost var hs := Collisions(at, enemies, collides);
    assert hs == old(Collisions(at, enemies, collides));
    assert States(hs) == old(States(hs)) && rng.drawn == old(rng.drawn);
    assert forall n | 0 <= n < |e0| :: e0[n].State() == old(e0[n].State());
    projectiles', struck', enemies', money', score', killed', hits :=
      Impact(p0, j, projectiles, struck, enemies, money, score, rng, e0, start, killed, money0, score0, collides);
    assert hits == hs;
    assert p0[j].pos == at && p0[j].vel == vel && p0[j].target == target;
  }

  /** The flight half of a turn: `Fly` on the `j`-th shot, which leaves the
      projectile invariant as it was; `at` and `vel` are where the shot now
      is and how it moves. */
  method Launch(p0: seq<Projectile>, j: nat, enemies: seq<Enemy>, turn: Turn, heading: Heading,
                ghost projectiles: seq<Projectile>, ghost struck: seq<bool>,
                ghost e0: seq<Enemy>, ghost start: seq<Motion>, ghost killed: seq<bool>,
                ghost money: int, ghost money0: int, ghost score: int, ghost score0: int, ghost collides: Collides)
    returns (ghost k: Option<nat>, ghost at: Point, ghost vel: Point)
    requires Distinct(p0) && j < |p0|
    requires ShotInv(p0, struck, projectiles, j, e0, start, killed, enemies, money, money0, score, score0, collides)
    modifies p0[j]
    ensures ShotInv(p0, struck, projectiles, j, e0, start, killed, enemies, money, money0, score, score0, collides)
    ensures p0[j].pos == at && p0[j].vel == vel && p0[j].homingStrength == old(p0[j].homingStrength)
    ensures var p := p0[j];
            var v := if p.homing && old(p.target) != null && old(p.target.health) > 0.0
                     then turn(old(p.vel), old(p.pos), old(p.target.pos), p.speed, old(p.homingStrength))
                     else old(p.vel);
            var lost := old(p.target) != null && !old(p.target.alive);
            var nearest := if k.Some? then Some(k.value) else None;
            && at == Add(old(p.pos), v)
            && (lost ==> old(IsNearest(at, enemies, None, false, nearest)))
            && p.target == (if lost && k.Some? then enemies[k.value] else old(p.target))
            && vel == (if lost && k.Some? && old(enemies[k.value].health) > 0.0
                       then heading(at, old(enemies[k.value].pos), p.speed) else v)
  {
    k := Fly(p0[j], enemies, turn, heading);
    at, vel := p0[j].pos, p0[j].vel;
  }

  /** The shot `p0[j]`, having flown, strikes every enemy on the list it
      touches (`Collisions`, in list order) and leaves the list; a shot that
      touches none stays, and then nothing changes. */
  method Impact(p0: seq<Projectile>, j: nat, projectiles: seq<Projectile>, ghost struck: seq<bool>,
                enemies: seq<Enemy>, money: int, score: int, rng: Rng,
                ghost e0: seq<Enemy>, ghost start: seq<Motion>, ghost killed: seq<bool>,
                ghost money0: int, ghost score0: int, collides: Collides)
    returns (projectiles': seq<Projectile>, ghost struck': seq<bool>,
             enemies': seq<Enemy>, money': int, score': int, ghost killed': seq<bool>, hits: seq<Enemy>)
    requires Distinct(p0) && Distinct(e0) && j < |p0|
    requires ShotInv(p0, struck, projectiles, j, e0, start, killed, enemies, money, money0, score, score0, collides)
    modifies (set k | 0 <= k < |e0| :: e0[k]), rng
    ensures ShotInv(p0, struck', projectiles', j + 1, e0, start, killed', enemies', money', money0, score', score0, collides)
    ensures hits == old(Collisions(p0[j].pos, enemies, collides)) && unchanged(p0[j])
    ensures struck' == (if hits == [] then struck else struck[j := true])
    ensures Struck(hits, old(States(hits)), old(rng.drawn), p0[j].damage, rng)
    ensures forall k | 0 <= k < |e0| && e0[k] !in hits :: e0[k].State() == old(e0[k].State())
  {
    var p := p0[j];
    hits := Collisions(p.pos, enemies, collides);
    if hits != [] {
      projectiles', struck', enemies', money', score', killed' :=
        Land(p0, j, hits, projectiles, struck, enemies, money, score, rng, e0, start, killed, money0, score0, collides);
    } else {
      projectiles', struck', enemies', money', score', killed' := projectiles, struck, enemies, money, score, killed;
      Passed(p0, j, projectiles, struck, enemies, money, score, e0, start, killed, money0, score0, collides, rng);
      assert States(hits) == [];
    }
  }

  /** A shot that touches no enemy leaves the projectile invariant one
      step further along, and strikes nobody. */
  lemma Passed(p0: seq<Projectile>, j: nat, projectiles: seq<Projectile>, struck: seq<bool>,
               enemies: seq<Enemy>, money: int, score: int,
               e0: seq<Enemy>, start: seq<Motion>, killed: seq<bool>,
               money0: int, score0: int, collides: Collides, rng: Rng)
    requires j < |p0|
    requires ShotInv(p0, struck, projectiles, j, e0, start, killed, enemies, money, money0, score, score0, collides)
    requires Collisions(p0[j].pos, enemies, collides) == []
    ensures ShotInv(p0, struck, projectiles, j + 1, e0, start, killed, enemies, money, money0, score, score0, collides)
    ensures Struck([], [], rng.drawn, p0[j].damage, rng)
  {
    Missed(p0[j].pos, e0, start, killed, enemies, money, money0, score, score0, collides);
  }

  /** A shot whose hit list is empty touches no enemy on the list. */
  lemma {:induction false} Missed(at: Point, e0: seq<Enemy>, start: seq<Motion>, killed: seq<bool>, enemies: seq<Enemy>,
               money: int, money0: int, score: int, score0: int, collides: Collides)
    requires Toll(e0, start, killed, enemies, money, money0, score, score0)
    requires Collisions(at, enemies, collides) == []
    ensures forall k | 0 <= k < |e0| && !killed[k] :: !collides(at, e0[k].kind, start[k].pos)
  {
    forall k | 0 <= k < |e0| && !killed[k] ensures !collides(at, e0[k].kind, start[k].pos) {
      RemainingMembers(e0, killed, e0[k]);
    }
  }

  /** A shot `p0[j]` with a non-empty hit list strikes every enemy on it
      (`Struck`) and leaves the list; no other enemy changes. */
  method Land(p0: seq<Projectile>, j: nat, hits: seq<Enemy>, projectiles: seq<Projectile>, ghost struck: seq<bool>,
              enemies: seq<Enemy>, money: int, score: int, rng: Rng,
              ghost e0: seq<Enemy>, ghost start: seq<Motion>, ghost killed: seq<bool>,
              ghost money0: int, ghost score0: int, ghost collides: Collides)
    returns (projectiles': seq<Projectile>, ghost struck': seq<bool>,
             enemies': seq<Enemy>, money': int, score': int, ghost killed': seq<bool>)
    requires Distinct(p0) && Distinct(e0) && j < |p0| == |struck|
    requires forall n | j <= n < |p0| :: !struck[n]
    requires projectiles == Remaining(p0, struck)
    requires Toll(e0, start, killed, enemies, money, money0, score, score0)
    requires forall x | x in hits :: x in enemies
    requires Distinct(enemies) ==> Distinct(hits)
    requires forall n, k | 0 <= n < j && 0 <= k < |e0| && !struck[n] && !killed[k] ::
               !collides(p0[n].pos, e0[k].kind, start[k].pos)
    modifies (set k | 0 <= k < |e0| :: e0[k]), rng
    ensures ShotInv(p0, struck', projectiles', j + 1, e0, start, killed', enemies', money', money0, score', score0, collides)
    ensures Toll(e0, start, killed', enemies', money', money0, score', score0)
    ensures |killed'| == |killed| && forall k | 0 <= k < |killed| && killed[k] :: killed'[k]
    ensures struck' == struck[j := true] && projectiles' == Remaining(p0, struck')
    ensures Struck(hits, old(States(hits)), old(rng.drawn), p0[j].damage, rng)
    ensures unchanged(p0[j])
    ensures forall k | 0 <= k < |e0| && e0[k] !in hits :: e0[k].State() == old(e0[k].State())
  {
    RemainingDistinct(e0, killed);
    enemies', money', score', killed' := Strike(hits, p0[j].damage, p0[j].isCritical, rng, enemies, money, score, e0, start, killed, money0, score0);
    RemainingMembers(p0, struck, p0[j]);
    projectiles' := projectiles;
    if p0[j] in projectiles {
      RemoveRemaining(p0, struck, j);
      projectiles' := Remove(projectiles, p0[j]);
    }
    struck' := struck[j := true];
  }

  /** The projectile loop of `on_update` over the shots `p0` (a copy of the
      list): each shot flies and strikes in turn. Afterwards the list holds
      the shots that touched nothing, in order, and the enemy list the
      enemies that were not killed; an enemy is killed exactly when it was
      alive and now is not; nobody moved; the money grew by the killed
      enemies' bounties and the score by ten times as much; and no shot left
      on the list touches an enemy left on the list. */
  method ProjectileLoop(p0: seq<Projectile>, e0: seq<Enemy>, money0: int, score0: int, rng: Rng,
                        turn: Turn, heading: Heading, collides: Collides)
    returns (projectiles: seq<Projectile>, enemies: seq<Enemy>, money: int, score: int,
             ghost struck: seq<bool>, ghost killed: seq<bool>)
    requires Distinct(p0) && Distinct(e0)
    requires forall k | 0 <= k < |e0| :: e0[k].Valid()
    modifies (set j | 0 <= j < |p0| :: p0[j]), (set k | 0 <= k < |e0| :: e0[k]), rng
    ensures |struck| == |p0| && projectiles == Remaining(p0, struck)
    ensures |killed| == |e0| && enemies == Remaining(e0, killed)
    ensures forall k | 0 <= k < |e0| ::
              && e0[k].Valid() && Unmoved(e0[k], old(e0[k].State()))
              && killed[k] == (old(e0[k].alive) && !e0[k].alive)
    ensures money == money0 + Bounties(e0, killed) && score == score0 + 10 * Bounties(e0, killed)
    ensures forall j, k | 0 <= j < |p0| && 0 <= k < |e0| && !struck[j] && !killed[k] ::
              !collides(p0[j].pos, e0[k].kind, e0[k].pos)
  {
    ghost var start := seq(|e0|, k reads e0 requires 0 <= k < |e0| => e0[k].State());
    struck := seq(|p0|, _ => false);
    killed := seq(|e0|, _ => false);
    RemainingAll(p0, struck);
    RemainingAll(e0, killed);
    BountiesNone(e0, killed);
    projectiles, enemies, money, score := p0, e0, money0, score0;
    for j := 0 to |p0|
      invariant ShotInv(p0, struck, projectiles, j, e0, start, killed, enemies, money, money0, score, score0, collides)
      invariant forall k | 0 <= k < |e0| :: start[k] == old(e0[k].State())
    {
      var hits; ghost var k, at, vel;
      projectiles, struck, enemies, money, score, killed, hits, k, at, vel :=
        ProjectileVisit(p0, j, projectiles, struck, enemies, money, score, rng, e0, start, killed, money0, score0,
                        turn, heading, collides);
    }
  }

  /** `ProjectileLoop` over a ready board: what remains of the shots and of
      the enemies is still distinct, the enemies left are ready and were on
      the board, and bounties only ever add money. */
  method ProjectilePass(p0: seq<Projectile>, e0: seq<Enemy>, money0: int, score0: int, rng: Rng,
                        turn: Turn, heading: Heading, collides: Collides)
    returns (projectiles: seq<Projectile>, enemies: seq<Enemy>, money: int, score: int,
             ghost struck: seq<bool>, ghost killed: seq<bool>)
    requires Distinct(p0) && EnemiesReady(e0)
    modifies (set p | p in p0), (set e | e in e0), rng
    ensures |struck| == |p0| && projectiles == Remaining(p0, struck) && Distinct(projectiles)
    ensures |killed| == |e0| && enemies == Remaining(e0, killed)
    ensures EnemiesReady(enemies) && forall e | e in enemies :: e in e0
    ensures forall k | 0 <= k < |e0| ::
              && killed[k] == (old(e0[k].alive) && !e0[k].alive)
              && Unmoved(e0[k], old(e0[k].State()))
    ensures money == money0 + Bounties(e0, killed) >= money0
    ensures score == score0 + 10 * Bounties(e0, killed)
    ensures forall j, k | 0 <= j < |p0| && 0 <= k < |e0| && !struck[j] && !killed[k] ::
              !collides(p0[j].pos, e0[k].kind, e0[k].pos)
  {
    projectiles, enemies, money, score, struck, killed := ProjectileLoop(p0, e0, money0, score0, rng, turn, heading, collides);
    BountiesNonNegative(e0, killed);
    RemainingDistinct(p0, struck);
    RemainingDistinct(e0, killed);
    forall e | e in enemies ensures e in e0 {
      RemainingMembers(e0, killed, e);
    }
    EnemiesReadyWithin(e0, enemies);
  }
}
