/** The wave director: fourteen hand-written waves of enemy counts, scaled
    once by the difficulty, then turned into a shuffled spawn roster when a
    wave starts. */
module Waves {
  import opened Common

  /** One wave: the count of each archetype, listed in `EnemyOrder`. */
  type Wave = seq<int>

  const BaseWaves: seq<Wave> := [
    [15, 0, 5, 0, 0, 0, 3, 0, 0, 0, 0],
    [20, 8, 10, 0, 0, 2, 5, 0, 0, 0, 0],
    [25, 12, 15, 5, 0, 3, 8, 0, 0, 0, 0],
    [30, 15, 18, 8, 2, 5, 10, 0, 0, 0, 0],
    [25, 18, 20, 12, 4, 6, 12, 0, 0, 0, 0],
    [30, 20, 25, 15, 6, 8, 15, 1, 0, 0, 0],
    [35, 22, 28, 18, 8, 10, 18, 0, 1, 0, 0],
    [40, 25, 35, 22, 10, 12, 20, 0, 0, 1, 0],
    [45, 28, 38, 25, 12, 15, 22, 1, 1, 0, 0],
    [50, 32, 45, 28, 15, 18, 25, 1, 0, 1, 0],
    [55, 35, 48, 30, 18, 20, 28, 0, 1, 1, 0],
    [60, 40, 55, 35, 22, 22, 30, 2, 0, 1, 1],
    [65, 45, 60, 40, 25, 25, 32, 1, 2, 1, 1],
    [70, 50, 65, 45, 28, 28, 35, 2, 2, 2, 1]
  ]

  /** The count of archetype `t` after difficulty scaling: easy games lose one
      of each boss and 30% (rounded down) of everything else, hard games
      double every non-zero count. */
  function ScaleCount(d: Difficulty, t: EnemyType, c: int): int {
    match d
    case Easy => if IsBoss(t) then (if c - 1 > 0 then c - 1 else 0) else if c > 0 then Trunc(c as real * 0.7) else c
    case Normal => c
    case Hard => if c > 0 then Trunc(c as real * 2.0) else c
  }

  /** `w` is `base` with every count scaled for difficulty `d`. */
  ghost predicate ScaledFrom(d: Difficulty, w: Wave, base: Wave) {
    && |w| == |base| <= |EnemyOrder|
    && forall k | 0 <= k < |w| :: w[k] == ScaleCount(d, EnemyOrder[k], base[k])
  }

  predicate NonNegative(w: Wave) {
    forall k | 0 <= k < |w| :: w[k] >= 0
  }

  /** `generate_waves`: the base table, rescaled in place count by count for
      easy and hard games. */
  method GenerateWaves(d: Difficulty) returns (waves: seq<Wave>)
    ensures |waves| == |BaseWaves|
    ensures forall i | 0 <= i < |waves| :: ScaledFrom(d, waves[i], BaseWaves[i])
  {
    waves := BaseWaves;
    if d == Easy || d == Hard {
      for i := 0 to |waves|
        invariant |waves| == |BaseWaves|
        invariant forall j | 0 <= j < i :: ScaledFrom(d, waves[j], BaseWaves[j])
        invariant forall j | i <= j < |waves| :: waves[j] == BaseWaves[j]
      {
        var wave := waves[i];
        for k := 0 to |wave|
          invariant |wave| == |BaseWaves[i]|
          invariant forall m | 0 <= m < k :: wave[m] == ScaleCount(d, EnemyOrder[m], BaseWaves[i][m])
          invariant forall m | k <= m < |wave| :: wave[m] == BaseWaves[i][m]
        {
          var key := EnemyOrder[k];
          if d == Easy {
            if IsBoss(key) {
              wave := wave[k := if wave[k] - 1 > 0 then wave[k] - 1 else 0];
            } else if wave[k] > 0 {
              wave := wave[k := Trunc(wave[k] as real * 0.7)];
            }
          } else if wave[k] > 0 {
            wave := wave[k := Trunc(wave[k] as real * 2.0)];
          }
        }
        waves := waves[i := wave];
      }
    }
  }

  /** Scaling never makes a count negative, easy never adds and hard never
      removes enemies; hard exactly doubles and easy drops exactly one boss of
      each kind present. */
  lemma ScaleCountOrder(t: EnemyType, c: int)
    requires c >= 0
    ensures 0 <= ScaleCount(Easy, t, c) <= ScaleCount(Normal, t, c) == c <= ScaleCount(Hard, t, c)
    ensures ScaleCount(Hard, t, c) == 2 * c
    ensures IsBoss(t) && c > 0 ==> ScaleCount(Easy, t, c) == c - 1
    ensures !IsBoss(t) && c > 0 ==> ScaleCount(Easy, t, c) < c
  {
    TruncBounds(c as real * 0.7);
    TruncBounds(c as real * 2.0);
  }

  /** `sum(wave_data.values())`. */
  function Total(w: Wave): int {
    if w == [] then 0 else Total(w[..|w| - 1]) + w[|w| - 1]
  }

  /** Over a whole wave: easy totals are at most normal ones and hard totals
      are exactly double. */
  lemma {:induction false} TotalsOrdered(easy: Wave, hard: Wave, base: Wave)
    requires ScaledFrom(Easy, easy, base) && ScaledFrom(Hard, hard, base) && NonNegative(base)
    ensures 0 <= Total(easy) <= Total(base)
    ensures Total(hard) == 2 * Total(base)
  {
    if base != [] {
      var n := |base| - 1;
      TotalsOrdered(easy[..n], hard[..n], base[..n]);
      ScaleCountOrder(EnemyOrder[n], base[n]);
    }
  }

  lemma ScaledNonNegative(d: Difficulty, w: Wave, base: Wave)
    requires ScaledFrom(d, w, base) && NonNegative(base)
    ensures NonNegative(w)
  {
    forall k | 0 <= k < |w| ensures w[k] >= 0 {
      ScaleCountOrder(EnemyOrder[k], base[k]);
    }
  }

  lemma {:induction false} TotalAtLeast(w: Wave, k: nat)
    requires NonNegative(w) && k < |w|
    ensures Total(w) >= w[k]
  {
    var n := |w| - 1;
    if k < n {
      TotalAtLeast(w[..n], k);
    } else {
      TotalNonNegative(w[..n]);
    }
  }

  lemma {:induction false} TotalNonNegative(w: Wave)
    requires NonNegative(w)
    ensures Total(w) >= 0
  {
    if w != [] {
      TotalNonNegative(w[..|w| - 1]);
    }
  }

  /** Every generated wave, at every difficulty, has slimes in it, so a wave
      never starts empty. */
  lemma WavesNeverEmpty(d: Difficulty, waves: seq<Wave>, i: nat)
    requires |waves| == |BaseWaves| && i < |waves|
    requires ScaledFrom(d, waves[i], BaseWaves[i])
    ensures NonNegative(waves[i]) && Total(waves[i]) > 0
  {
    var base := BaseWaves[i];
    assert base[0] >= 15;
    assert NonNegative(base);
    ScaleCountOrder(Slime, base[0]);
    TruncBounds(base[0] as real * 0.7);
    ScaledNonNegative(d, waves[i], base);
    TotalAtLeast(waves[i], 0);
  }

  /** `[t] * c`: empty for a count that is not positive. */
  function Repeat(t: EnemyType, c: int): (r: seq<EnemyType>)
    ensures |r| == if c > 0 then c else 0
    ensures forall x | x in r :: x == t
  {
    if c <= 0 then [] else Repeat(t, c - 1) + [t]
  }

  /** The unshuffled roster of a wave: each archetype repeated by its count,
      in `EnemyOrder`. */
  function Roster(w: Wave): seq<EnemyType>
    requires |w| <= |EnemyOrder|
  {
    if w == [] then [] else Roster(w[..|w| - 1]) + Repeat(EnemyOrder[|w| - 1], w[|w| - 1])
  }

  /** The first loop of `start_wave`: extend the list archetype by archetype. */
  method BuildRoster(w: Wave) returns (types: seq<EnemyType>)
    requires |w| == |EnemyOrder|
    ensures types == Roster(w)
  {
    types := [];
    for k := 0 to |w|
      invariant types == Roster(w[..k])
    {
      assert w[..k + 1][..k] == w[..k];
      types := types + Repeat(EnemyOrder[k], w[k]);
    }
    assert w[..|w|] == w;
  }

  /** The position of `t` in `EnemyOrder`. */
  function Index(t: EnemyType): (k: nat)
    ensures k < |EnemyOrder| && EnemyOrder[k] == t
  {
    match t
    case Slime => 0 case Orc => 1 case Goblin => 2 case Skeleton => 3
    case Knight => 4 case Tank => 5 case Ninja => 6 case BossDragon => 7
    case BossGiant => 8 case BossWizard => 9 case BossCyber => 10
  }

  lemma {:induction false} RepeatCount(u: EnemyType, c: int, t: EnemyType)
    ensures multiset(Repeat(u, c))[t] == if u == t && c > 0 then c else 0
  {
    if c > 0 {
      RepeatCount(u, c - 1, t);
    }
  }

  /** The roster holds exactly the wave's count of every archetype, so it
      has `Total(w)` entries. */
  lemma {:induction false} RosterCounts(w: Wave, t: EnemyType)
    requires |w| <= |EnemyOrder|
    ensures multiset(Roster(w))[t] == if Index(t) < |w| then |Repeat(t, w[Index(t)])| else 0
  {
    if w != [] {
      var n := |w| - 1;
      var k := Index(t);
      RosterCounts(w[..n], t);
      RepeatCount(EnemyOrder[n], w[n], t);
      RosterLast(w, t);
      IndexUnique(t, n);
    }
  }

  /** `EnemyOrder` lists each archetype once. */
  lemma IndexUnique(t: EnemyType, j: nat)
    requires j < |EnemyOrder|
    ensures EnemyOrder[j] == t <==> j == Index(t)
  {
  }

  lemma RosterLast(w: Wave, t: EnemyType)
    requires 0 < |w| <= |EnemyOrder|
    ensures var n := |w| - 1;
      multiset(Roster(w))[t] == multiset(Roster(w[..n]))[t] + multiset(Repeat(EnemyOrder[n], w[n]))[t]
  {
  }

  lemma {:induction false} RosterSize(w: Wave)
    requires |w| <= |EnemyOrder| && NonNegative(w)
    ensures |Roster(w)| == Total(w)
  {
    if w != [] {
      RosterSize(w[..|w| - 1]);
    }
  }

  /** `random.shuffle`: Fisher-Yates from the back, swapping each position
      with one drawn at or before it. `below` supplies the draws: the draw
      `randbelow(n)` is `below(n) % n`, always an index below `n`. */
  method Shuffle(a: array<EnemyType>, below: nat -> nat)
    modifies a
    ensures multiset(a[..]) == old(multiset(a[..]))
  {
    var i := a.Length - 1;
    while i >= 1
      invariant i < a.Length
      invariant multiset(a[..]) == old(multiset(a[..]))
    {
      var j := below(i + 1) % (i + 1);
      a[i], a[j] := a[j], a[i];
      i := i - 1;
    }
  }
}
