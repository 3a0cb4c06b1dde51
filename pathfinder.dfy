/** The grid pathfinder of `GameView`: the scan of a level map into road cells
    (`points_dict`), tower spots, start cells and the end cell; the 4-neighbour
    breadth-first search `find_path_bfs`; and the construction of the one or two
    waypoint paths enemies follow, with the two-point fallback. */
module Pathfinder {
  import opened Common

  const TileSize: int := 64
  const TowerButtonsWidth: int := 220
  const UiHeight: int := 140

  /** A grid cell: column `x`, row `y`. */
  datatype Cell = Cell(x: int, y: int)

  /** A world position of a tile centre (integers, as the scan computes them). */
  datatype Pos = Pos(x: int, y: int)

  function ToPoint(p: Pos): Point {
    Point(p.x as real, p.y as real)
  }

  /** World centre of a cell: `x*TILE_SIZE + TILE_SIZE//2 + offset`. */
  function Centre(c: Cell, offX: int, offY: int): Pos {
    Pos(c.x * TileSize + TileSize / 2 + offX, c.y * TileSize + TileSize / 2 + offY)
  }

  /** The four moves in the order the search tries them: (1,0), (-1,0), (0,1), (0,-1). */
  function Neighbour(c: Cell, k: nat): Cell
    requires k < 4
  {
    if k == 0 then Cell(c.x + 1, c.y)
    else if k == 1 then Cell(c.x - 1, c.y)
    else if k == 2 then Cell(c.x, c.y + 1)
    else Cell(c.x, c.y - 1)
  }

  predicate Adjacent(a: Cell, b: Cell) {
    b == Neighbour(a, 0) || b == Neighbour(a, 1) || b == Neighbour(a, 2) || b == Neighbour(a, 3)
  }

  function Last<T>(s: seq<T>): T
    requires |s| > 0
  {
    s[|s| - 1]
  }

  /** A route through `cells` that begins at `from` and moves by 4-adjacent steps. */
  ghost predicate IsWalk(w: seq<Cell>, from: Cell, cells: set<Cell>) {
    && |w| >= 1
    && w[0] == from
    && (forall i | 0 <= i < |w| :: w[i] in cells)
    && (forall i | 0 <= i < |w| - 1 :: Adjacent(w[i], w[i + 1]))
  }

  predicate Distinct<T(==)>(s: seq<T>) {
    forall i, j | 0 <= i < j < |s| :: s[i] != s[j]
  }

  ghost predicate Reachable(from: Cell, to: Cell, cells: set<Cell>) {
    exists w :: IsWalk(w, from, cells) && Last(w) == to
  }

  lemma WalkPrefix(w: seq<Cell>, from: Cell, cells: set<Cell>, n: nat)
    requires IsWalk(w, from, cells) && 1 <= n <= |w|
    ensures IsWalk(w[..n], from, cells)
  {
  }

  lemma WalkExtend(w: seq<Cell>, from: Cell, cells: set<Cell>, c: Cell)
    requires IsWalk(w, from, cells) && c in cells && Adjacent(Last(w), c)
    ensures IsWalk(w + [c], from, cells)
  {
  }

  // ---------------------------------------------------------------------
  // Breadth-first search
  // ---------------------------------------------------------------------

  /** The set of the last cells of the paths in a queue. */
  ghost function Lasts(q: seq<seq<Cell>>): set<Cell> {
    if q == [] then {}
    else (if |q[0]| > 0 then {Last(q[0])} else {}) + Lasts(q[1..])
  }

  lemma {:induction false} LastsMember(q: seq<seq<Cell>>, c: Cell)
    ensures c in Lasts(q) <==> exists i :: 0 <= i < |q| && |q[i]| > 0 && Last(q[i]) == c
  {
    if q != [] {
      LastsMember(q[1..], c);
      if c in Lasts(q[1..]) {
        var i :| 0 <= i < |q[1..]| && |q[1..][i]| > 0 && Last(q[1..][i]) == c;
        assert q[i + 1] == q[1..][i];
      }
      forall i | 1 <= i < |q| ensures q[i] == q[1..][i - 1] {}
    }
  }

  lemma {:induction false} LastsConcat(a: seq<seq<Cell>>, b: seq<seq<Cell>>)
    ensures Lasts(a + b) == Lasts(a) + Lasts(b)
  {
    if a != [] {
      assert (a + b)[1..] == a[1..] + b;
      LastsConcat(a[1..], b);
    } else {
      assert a + b == b;
    }
  }

  // The search state after each round, one conjunct per predicate. `dist` maps
  // every visited cell to the length of the path that first reached it and
  // `done` holds the cells already expanded.

  ghost predicate NonEmptyPaths(queue: seq<seq<Cell>>) {
    forall i | 0 <= i < |queue| :: |queue[i]| > 0
  }

  /** The queue holds simple walks from `start` over visited cells, each ending
      on a cell recorded at its length. */
  ghost predicate PathsOk(start: Cell, cells: set<Cell>, queue: seq<seq<Cell>>, dist: map<Cell, nat>) {
    forall i | 0 <= i < |queue| ::
      && IsWalk(queue[i], start, cells) && Distinct(queue[i])
      && (forall c | c in queue[i] :: c in dist)
      && dist[Last(queue[i])] == |queue[i]|
  }

  /** The visited cells not yet expanded are exactly the ends of queued paths,
      and no two queued paths end on the same cell. */
  ghost predicate LastsOk(queue: seq<seq<Cell>>, visited: set<Cell>, done: set<Cell>)
    requires NonEmptyPaths(queue)
  {
    && visited - done == Lasts(queue)
    && (forall i, j | 0 <= i < j < |queue| :: Last(queue[i]) != Last(queue[j]))
  }

  /** Path lengths along the queue never decrease and span at most one. */
  ghost predicate LengthsOk(queue: seq<seq<Cell>>) {
    && (forall i, j | 0 <= i <= j < |queue| :: |queue[i]| <= |queue[j]|)
    && (queue != [] ==> |Last(queue)| <= |queue[0]| + 1)
  }

  ghost predicate BoundOk(queue: seq<seq<Cell>>, dist: map<Cell, nat>) {
    queue != [] ==> forall c | c in dist :: dist[c] <= |queue[0]| + 1
  }

  /** Every road neighbour of an expanded cell is visited, at most one step further. */
  ghost predicate ClosureOk(done: set<Cell>, cells: set<Cell>, dist: map<Cell, nat>) {
    forall x, k | x in done && 0 <= k < 4 && Neighbour(x, k) in cells ::
      x in dist && Neighbour(x, k) in dist && dist[Neighbour(x, k)] <= dist[x] + 1
  }

  /** Every walk no longer than the head of the queue ends on a visited cell,
      recorded at a length no larger than its own. */
  ghost predicate WalksOk(start: Cell, cells: set<Cell>, queue: seq<seq<Cell>>, dist: map<Cell, nat>) {
    queue != [] ==> forall w | IsWalk(w, start, cells) && |w| <= |queue[0]| ::
      Last(w) in dist && dist[Last(w)] <= |w|
  }

  ghost predicate SearchState(start: Cell, end: Cell, cells: set<Cell>, queue: seq<seq<Cell>>,
                              visited: set<Cell>, done: set<Cell>, dist: map<Cell, nat>)
  {
    && start in cells && end in cells
    && visited <= cells && done <= visited && start in visited
    && dist.Keys == visited && end !in done
    && NonEmptyPaths(queue)
    && PathsOk(start, cells, queue, dist)
    && LastsOk(queue, visited, done)
    && LengthsOk(queue)
    && BoundOk(queue, dist)
    && ClosureOk(done, cells, dist)
    && WalksOk(start, cells, queue, dist)
  }

  /** What expanding the head `path` of the queue produced: the paths `added`
      extend it by one new road cell next to its end, one per cell first reached now. */
  ghost predicate AddedOk(path: seq<Cell>, added: seq<seq<Cell>>, cells: set<Cell>,
                          dist0: map<Cell, nat>, dist: map<Cell, nat>)
    requires |path| > 0
  {
    && dist0.Keys <= dist.Keys <= cells
    && (forall c | c in dist0 :: dist[c] == dist0[c])
    && (forall i | 0 <= i < |added| ::
          && |added[i]| == |path| + 1 && added[i][..|path|] == path
          && Last(added[i]) !in dist0 && Last(added[i]) in dist
          && Adjacent(Last(path), Last(added[i])))
    && (forall i, j | 0 <= i < j < |added| :: Last(added[i]) != Last(added[j]))
    && NonEmptyPaths(added)
    && dist.Keys - dist0.Keys == Lasts(added)
    && (forall c | c in dist && c !in dist0 :: dist[c] == |path| + 1)
    && (forall j | 0 <= j < 4 && Neighbour(Last(path), j) in cells ::
          Neighbour(Last(path), j) in dist
          && (Neighbour(Last(path), j) !in dist0 ==> dist[Neighbour(Last(path), j)] == |path| + 1))
  }

  lemma RoundPathsOk(start: Cell, end: Cell, cells: set<Cell>, queue0: seq<seq<Cell>>,
                     added: seq<seq<Cell>>, visited0: set<Cell>, done0: set<Cell>,
                     dist0: map<Cell, nat>, dist: map<Cell, nat>)
    requires SearchState(start, end, cells, queue0, visited0, done0, dist0)
    requires queue0 != [] && AddedOk(queue0[0], added, cells, dist0, dist)
    ensures PathsOk(start, cells, queue0[1..] + added, dist)
  {
    var path := queue0[0];
    var queue := queue0[1..] + added;
    var n0 := |queue0| - 1;
    forall i | 0 <= i < |queue|
      ensures IsWalk(queue[i], start, cells) && Distinct(queue[i])
      ensures forall c | c in queue[i] :: c in dist
      ensures dist[Last(queue[i])] == |queue[i]|
    {
      if i < n0 {
        assert queue[i] == queue0[i + 1];
      } else {
        var p := queue[i];
        assert p == added[i - n0];
        var nx := Last(p);
        assert p == path + [nx] by {
          assert p == p[..|path|] + [p[|path|]];
        }
        assert nx in dist && nx !in dist0;
        assert forall c | c in path :: c in dist0;
        WalkExtend(path, start, cells, nx);
      }
    }
  }

  lemma RoundNonEmpty(queue0: seq<seq<Cell>>, added: seq<seq<Cell>>)
    requires queue0 != [] && NonEmptyPaths(queue0) && NonEmptyPaths(added)
    ensures NonEmptyPaths(queue0[1..] + added)
  {
    var queue := queue0[1..] + added;
    var n0 := |queue0| - 1;
    forall i | 0 <= i < |queue| ensures |queue[i]| > 0 {
      if i < n0 { assert queue[i] == queue0[i + 1]; } else { assert queue[i] == added[i - n0]; }
    }
  }

  /** Popping the head removes exactly its end cell from the pending ends. */
  lemma PopLasts(queue0: seq<seq<Cell>>)
    requires queue0 != [] && NonEmptyPaths(queue0)
    requires forall i, j | 0 <= i < j < |queue0| :: Last(queue0[i]) != Last(queue0[j])
    ensures Lasts(queue0[1..]) == Lasts(queue0) - {Last(queue0[0])}
  {
    var current := Last(queue0[0]);
    assert Lasts(queue0) == {current} + Lasts(queue0[1..]);
    assert current !in Lasts(queue0[1..]) by {
      LastsMember(queue0[1..], current);
      forall i | 0 <= i < |queue0[1..]| ensures queue0[1..][i] == queue0[i + 1] {}
    }
  }

  lemma RoundLastsOk(start: Cell, end: Cell, cells: set<Cell>, queue0: seq<seq<Cell>>,
                     added: seq<seq<Cell>>, visited0: set<Cell>, done0: set<Cell>,
                     dist0: map<Cell, nat>, dist: map<Cell, nat>)
    requires SearchState(start, end, cells, queue0, visited0, done0, dist0)
    requires queue0 != [] && AddedOk(queue0[0], added, cells, dist0, dist)
    ensures NonEmptyPaths(queue0[1..] + added)
    ensures LastsOk(queue0[1..] + added, dist.Keys, done0 + {Last(queue0[0])})
  {
    RoundNonEmpty(queue0, added);
    PopLasts(queue0);
    LastsConcat(queue0[1..], added);
    RoundLastsDistinct(start, cells, queue0, added, dist0, dist);
  }

  lemma RoundLastsDistinct(start: Cell, cells: set<Cell>, queue0: seq<seq<Cell>>,
                           added: seq<seq<Cell>>, dist0: map<Cell, nat>, dist: map<Cell, nat>)
    requires queue0 != [] && NonEmptyPaths(queue0) && NonEmptyPaths(added)
    requires PathsOk(start, cells, queue0, dist0)
    requires forall i, j | 0 <= i < j < |queue0| :: Last(queue0[i]) != Last(queue0[j])
    requires forall i | 0 <= i < |added| :: Last(added[i]) !in dist0
    requires forall i, j | 0 <= i < j < |added| :: Last(added[i]) != Last(added[j])
    ensures forall i, j | 0 <= i < j < |queue0[1..] + added| ::
              |(queue0[1..] + added)[i]| > 0 && |(queue0[1..] + added)[j]| > 0 &&
              Last((queue0[1..] + added)[i]) != Last((queue0[1..] + added)[j])
  {
    var queue := queue0[1..] + added;
    var n0 := |queue0| - 1;
    forall i, j | 0 <= i < j < |queue|
      ensures |queue[i]| > 0 && |queue[j]| > 0 && Last(queue[i]) != Last(queue[j])
    {
      if j < n0 {
        assert queue[i] == queue0[i + 1] && queue[j] == queue0[j + 1];
      } else if i < n0 {
        assert queue[i] == queue0[i + 1] && queue[j] == added[j - n0];
        assert Last(queue0[i + 1]) in queue0[i + 1];
      } else {
        assert queue[i] == added[i - n0] && queue[j] == added[j - n0];
      }
    }
  }

  lemma RoundLengthsOk(start: Cell, end: Cell, cells: set<Cell>, queue0: seq<seq<Cell>>,
                       added: seq<seq<Cell>>, visited0: set<Cell>, done0: set<Cell>,
                       dist0: map<Cell, nat>, dist: map<Cell, nat>)
    requires SearchState(start, end, cells, queue0, visited0, done0, dist0)
    requires queue0 != [] && AddedOk(queue0[0], added, cells, dist0, dist)
    ensures LengthsOk(queue0[1..] + added)
    ensures BoundOk(queue0[1..] + added, dist)
    ensures queue0[1..] + added != [] ==> |queue0[0]| <= |(queue0[1..] + added)[0]| <= |queue0[0]| + 1
  {
    var l := |queue0[0]|;
    var queue := queue0[1..] + added;
    var n0 := |queue0| - 1;
    forall i, j | 0 <= i <= j < |queue| ensures |queue[i]| <= |queue[j]| {
      if j < n0 {
        assert queue[i] == queue0[i + 1] && queue[j] == queue0[j + 1];
      } else if i < n0 {
        assert queue[i] == queue0[i + 1] && queue[j] == added[j - n0];
        assert |queue0[i + 1]| <= |Last(queue0)| <= l + 1;
      } else {
        assert queue[i] == added[i - n0] && queue[j] == added[j - n0];
      }
    }
    if queue != [] {
      var h := |queue[0]|;
      if n0 > 0 {
        assert queue[0] == queue0[1];
      } else {
        assert queue[0] == added[0];
      }
      assert l <= h <= l + 1;
      if |added| > 0 {
        assert Last(queue) == Last(added);
      } else {
        assert Last(queue) == Last(queue0);
      }
      forall c | c in dist ensures dist[c] <= h + 1 {
        if c in dist0 {
          assert dist0[c] <= l + 1;
        }
      }
    }
  }

  lemma RoundClosureOk(start: Cell, end: Cell, cells: set<Cell>, queue0: seq<seq<Cell>>,
                       added: seq<seq<Cell>>, visited0: set<Cell>, done0: set<Cell>,
                       dist0: map<Cell, nat>, dist: map<Cell, nat>)
    requires SearchState(start, end, cells, queue0, visited0, done0, dist0)
    requires queue0 != [] && AddedOk(queue0[0], added, cells, dist0, dist)
    ensures ClosureOk(done0 + {Last(queue0[0])}, cells, dist)
  {
    var current := Last(queue0[0]);
    assert dist0[current] == |queue0[0]|;
    forall x, k | x in done0 + {current} && 0 <= k < 4 && Neighbour(x, k) in cells
      ensures x in dist && Neighbour(x, k) in dist && dist[Neighbour(x, k)] <= dist[x] + 1
    {
      if x == current {
        var n := Neighbour(x, k);
        if n in dist0 {
          assert dist0[n] <= |queue0[0]| + 1;
        }
      }
    }
  }

  /** The step of the correctness argument: once every path of length `l` is
      expanded and the head of the queue has length `l + 1`, every walk of
      length `l + 1` ends on a visited cell recorded at length at most `l + 1`. */
  lemma WalksOneLonger(start: Cell, cells: set<Cell>, queue: seq<seq<Cell>>,
                       done: set<Cell>, dist: map<Cell, nat>, l: nat)
    requires l >= 1 && queue != [] && |queue[0]| == l + 1
    requires done <= dist.Keys
    requires NonEmptyPaths(queue) && PathsOk(start, cells, queue, dist)
    requires LastsOk(queue, dist.Keys, done) && LengthsOk(queue) && ClosureOk(done, cells, dist)
    requires forall w | IsWalk(w, start, cells) && |w| <= l :: Last(w) in dist && dist[Last(w)] <= |w|
    ensures WalksOk(start, cells, queue, dist)
  {
    forall w | IsWalk(w, start, cells) && |w| <= l + 1
      ensures Last(w) in dist && dist[Last(w)] <= |w|
    {
      if |w| == l + 1 {
        WalkPrefix(w, start, cells, l);
        var y := Last(w[..l]);
        assert y == w[l - 1];
        assert y in done by {
          LastsMember(queue, y);
        }
        assert Adjacent(w[l - 1], w[l]);
        var k :| 0 <= k < 4 && w[l] == Neighbour(y, k);
      }
    }
  }

  lemma RoundWalksOk(start: Cell, end: Cell, cells: set<Cell>, queue0: seq<seq<Cell>>,
                     added: seq<seq<Cell>>, visited0: set<Cell>, done0: set<Cell>,
                     dist0: map<Cell, nat>, dist: map<Cell, nat>)
    requires SearchState(start, end, cells, queue0, visited0, done0, dist0)
    requires queue0 != [] && AddedOk(queue0[0], added, cells, dist0, dist)
    requires NonEmptyPaths(queue0[1..] + added) && PathsOk(start, cells, queue0[1..] + added, dist)
    requires LastsOk(queue0[1..] + added, dist.Keys, done0 + {Last(queue0[0])})
    requires LengthsOk(queue0[1..] + added)
    requires ClosureOk(done0 + {Last(queue0[0])}, cells, dist)
    requires queue0[1..] + added != [] ==> |queue0[0]| <= |(queue0[1..] + added)[0]| <= |queue0[0]| + 1
    ensures WalksOk(start, cells, queue0[1..] + added, dist)
  {
    var l := |queue0[0]|;
    var queue := queue0[1..] + added;
    if queue != [] {
      assert IsWalk(queue0[0], start, cells);
      forall w | IsWalk(w, start, cells) && |w| <= l ensures Last(w) in dist && dist[Last(w)] <= |w| {
        assert Last(w) in dist0 && dist0[Last(w)] <= |w|;
      }
      if |queue[0]| == l + 1 {
        WalksOneLonger(start, cells, queue, done0 + {Last(queue0[0])}, dist, l);
      }
    }
  }

  /** One round of the search (pop the head, enqueue its unvisited road
      neighbours, mark it expanded) keeps `SearchState`. */
  lemma RoundKeepsState(start: Cell, end: Cell, cells: set<Cell>, queue0: seq<seq<Cell>>,
                        added: seq<seq<Cell>>, visited0: set<Cell>, done0: set<Cell>,
                        dist0: map<Cell, nat>, dist: map<Cell, nat>)
    requires SearchState(start, end, cells, queue0, visited0, done0, dist0)
    requires queue0 != [] && Last(queue0[0]) != end
    requires AddedOk(queue0[0], added, cells, dist0, dist)
    ensures SearchState(start, end, cells, queue0[1..] + added, dist.Keys, done0 + {Last(queue0[0])}, dist)
  {
    RoundPathsOk(start, end, cells, queue0, added, visited0, done0, dist0, dist);
    RoundLastsOk(start, end, cells, queue0, added, visited0, done0, dist0, dist);
    RoundLengthsOk(start, end, cells, queue0, added, visited0, done0, dist0, dist);
    RoundClosureOk(start, end, cells, queue0, added, visited0, done0, dist0, dist);
    RoundWalksOk(start, end, cells, queue0, added, visited0, done0, dist0, dist);
  }

  /** The path at the head of the queue is no longer than any walk to its end cell. */
  lemma HeadIsShortest(start: Cell, end: Cell, cells: set<Cell>, queue: seq<seq<Cell>>,
                       visited: set<Cell>, done: set<Cell>, dist: map<Cell, nat>)
    requires SearchState(start, end, cells, queue, visited, done, dist)
    requires queue != []
    ensures forall w | IsWalk(w, start, cells) && Last(w) == Last(queue[0]) :: |queue[0]| <= |w|
  {
    forall w | IsWalk(w, start, cells) && Last(w) == Last(queue[0]) ensures |queue[0]| <= |w| {
      assert IsWalk(queue[0], start, cells);
    }
  }

  /** When the queue runs dry, the expanded cells are closed under moves inside
      `cells`, so every walk from `start` stays among them. */
  lemma {:induction false} ClosedWalksStayDone(start: Cell, cells: set<Cell>, done: set<Cell>,
                                               dist: map<Cell, nat>, w: seq<Cell>)
    requires start in done
    requires ClosureOk(done, cells, dist) && dist.Keys == done
    requires IsWalk(w, start, cells)
    ensures Last(w) in done
  {
    if |w| > 1 {
      WalkPrefix(w, start, cells, |w| - 1);
      ClosedWalksStayDone(start, cells, done, dist, w[..|w| - 1]);
      assert Adjacent(w[|w| - 2], w[|w| - 1]);
    }
  }

  lemma ExhaustedUnreachable(start: Cell, end: Cell, cells: set<Cell>,
                             visited: set<Cell>, done: set<Cell>, dist: map<Cell, nat>)
    requires SearchState(start, end, cells, [], visited, done, dist)
    ensures !Reachable(start, end, cells)
  {
    assert Lasts([]) == {};
    assert LastsOk([], visited, done);
    assert visited - done == {};
    forall x | x in visited ensures x in done {
      assert x !in visited - done;
    }
    forall w | IsWalk(w, start, cells) && Last(w) == end ensures false {
      ClosedWalksStayDone(start, cells, done, dist, w);
    }
  }

  lemma InitialState(start: Cell, end: Cell, cells: set<Cell>)
    requires start in cells && end in cells
    ensures SearchState(start, end, cells, [[start]], {start}, {}, map[start := 1])
  {
    var queue, dist := [[start]], map[start := 1];
    assert Lasts(queue) == {start} + Lasts([]);
    assert WalksOk(start, cells, queue, dist) by {
      forall w | IsWalk(w, start, cells) && |w| <= 1 ensures Last(w) in dist && dist[Last(w)] <= |w| {
        assert Last(w) == w[0];
      }
    }
  }

  /** The inner loop of `find_path_bfs` after its first `k` moves: `AddedOk`
      for the moves tried so far. */
  ghost predicate Expanded(path: seq<Cell>, added: seq<seq<Cell>>, cells: set<Cell>,
                           dist0: map<Cell, nat>, dist: map<Cell, nat>, k: nat)
    requires |path| > 0 && k <= 4
  {
    && dist0.Keys <= dist.Keys <= cells
    && (dist.Keys == dist0.Keys ==> added == [])
    && (forall c | c in dist0 :: dist[c] == dist0[c])
    && (forall i | 0 <= i < |added| ::
          && |added[i]| == |path| + 1 && added[i][..|path|] == path
          && Last(added[i]) !in dist0 && Last(added[i]) in dist
          && Adjacent(Last(path), Last(added[i])))
    && (forall i, j | 0 <= i < j < |added| :: Last(added[i]) != Last(added[j]))
    && NonEmptyPaths(added)
    && dist.Keys - dist0.Keys == Lasts(added)
    && (forall c | c in dist && c !in dist0 :: dist[c] == |path| + 1)
    && (forall j | 0 <= j < k && Neighbour(Last(path), j) in cells ::
          Neighbour(Last(path), j) in dist
          && (Neighbour(Last(path), j) !in dist0 ==> dist[Neighbour(Last(path), j)] == |path| + 1))
  }

  /** A move onto a cell that is not road or already visited adds nothing. */
  lemma ExpandSkip(path: seq<Cell>, added: seq<seq<Cell>>, cells: set<Cell>,
                   dist0: map<Cell, nat>, dist: map<Cell, nat>, k: nat)
    requires |path| > 0 && k < 4 && Expanded(path, added, cells, dist0, dist, k)
    requires Neighbour(Last(path), k) in cells ==> Neighbour(Last(path), k) in dist
    ensures Expanded(path, added, cells, dist0, dist, k + 1)
  {
  }

  /** A move onto an unvisited road cell enqueues the path extended by it. */
  lemma ExpandEnqueue(path: seq<Cell>, added: seq<seq<Cell>>, cells: set<Cell>,
                      dist0: map<Cell, nat>, dist: map<Cell, nat>, k: nat)
    requires |path| > 0 && k < 4 && Expanded(path, added, cells, dist0, dist, k)
    requires Neighbour(Last(path), k) in cells && Neighbour(Last(path), k) !in dist
    ensures var next := Neighbour(Last(path), k);
      Expanded(path, added + [path + [next]], cells, dist0, dist[next := |path| + 1], k + 1)
  {
    var next := Neighbour(Last(path), k);
    var p := path + [next];
    assert p[..|path|] == path;
    LastsConcat(added, [p]);
    assert Lasts([p]) == {next} + Lasts([]);
  }

  /** The inner loop of `find_path_bfs`: tries the four moves from the end of
      `path` and enqueues every road cell not yet visited. */
  method ExpandHead(path: seq<Cell>, points: map<Cell, Pos>, queue: seq<seq<Cell>>,
                    visited: set<Cell>, ghost dist: map<Cell, nat>)
    returns (queue': seq<seq<Cell>>, visited': set<Cell>, ghost added: seq<seq<Cell>>,
             ghost dist': map<Cell, nat>)
    requires |path| > 0 && dist.Keys == visited && visited <= points.Keys
    ensures queue' == queue + added && dist'.Keys == visited'
    ensures visited' == visited ==> added == []
    ensures visited <= visited'
    ensures AddedOk(path, added, points.Keys, dist, dist')
  {
    var current := path[|path| - 1];
    queue', visited', added, dist' := queue, visited, [], dist;
    for k := 0 to 4
      invariant queue' == queue + added && dist'.Keys == visited'
      invariant Expanded(path, added, points.Keys, dist, dist', k)
    {
      var next := Neighbour(current, k);
      if next in points && next !in visited' {
        ExpandEnqueue(path, added, points.Keys, dist, dist', k);
        var p := path + [next];
        visited' := visited' + {next};
        dist' := dist'[next := |path| + 1];
        queue' := queue' + [p];
        added := added + [p];
      } else {
        ExpandSkip(path, added, points.Keys, dist, dist', k);
      }
    }
  }

  /** Marking a cell visited leaves fewer road cells to visit. */
  lemma FewerUnvisited(cells: set<Cell>, visited0: set<Cell>, visited: set<Cell>)
    requires visited0 <= visited <= cells && visited != visited0
    ensures |cells - visited| < |cells - visited0|
  {
    var c :| c in visited && c !in visited0;
    assert cells - visited0 == (cells - visited) + (visited - visited0);
    assert c in visited - visited0;
  }

  /** `find_path_bfs`: breadth-first search over the road cells (the keys of
      `points`) with a queue of paths and a visited set. It fails exactly when an
      endpoint is not a road cell or `end` cannot be reached; otherwise it returns
      a shortest route, which never repeats a cell. */
  method FindPathBfs(start: Cell, end: Cell, points: map<Cell, Pos>) returns (r: Option<seq<Cell>>)
    ensures r.None? <==> (start !in points || end !in points || !Reachable(start, end, points.Keys))
    ensures r.Some? ==> IsWalk(r.value, start, points.Keys) && Last(r.value) == end && Distinct(r.value)
    ensures r.Some? ==> forall w | IsWalk(w, start, points.Keys) && Last(w) == end :: |r.value| <= |w|
  {
    if start !in points || end !in points {
      return None;
    }
    ghost var cells := points.Keys;
    var queue: seq<seq<Cell>> := [[start]];
    var visited: set<Cell> := {start};
    ghost var done: set<Cell> := {};
    ghost var dist: map<Cell, nat> := map[start := 1];
    InitialState(start, end, cells);

    while queue != []
      invariant SearchState(start, end, cells, queue, visited, done, dist)
      decreases |cells - visited|, |queue|
    {
      var path := queue[0];
      var current := path[|path| - 1];
      if current == end {
        HeadIsShortest(start, end, cells, queue, visited, done, dist);
        return Some(path);
      }
      ghost var queue0, visited0, done0, dist0 := queue, visited, done, dist;
      ghost var added;
      queue, visited, added, dist := ExpandHead(path, points, queue[1..], visited, dist);
      done := done + {current};
      RoundKeepsState(start, end, cells, queue0, added, visited0, done0, dist0, dist);
      if visited != visited0 {
        FewerUnvisited(cells, visited0, visited);
      } else {
        assert queue == queue0[1..];
      }
    }
    ExhaustedUnreachable(start, end, cells, visited, done, dist);
    return None;
  }

  // ---------------------------------------------------------------------
  // The level maps and their scan
  // ---------------------------------------------------------------------

  // Each row is the row string of `load_map` after `split()`: one token per
  // cell, 'T' a tower spot, '#' road, 'S' a start and 'E' the end.

  const ForestMap: seq<string> := [
    "TTTTTTTTTTTTTTTTTTTT",
    "TTTTTTTTTTTTTTTTTTTT",
    "T##################E",
    "T#TTTTTTTTTTTTTTTTTT",
    "T#TTTTTTTTTTTTTTTTTT",
    "T#TTTTTTTTTTTTTTTTTT",
    "T####TTTT#####TTTTTT",
    "TTTT#TTTT#TTT#TTTTTT",
    "TTTT#TTTT#TTT#TTTTTT",
    "TTTT#TTTT#TTT#TTTTTT",
    "TTTT######TTT######T",
    "TTTTTTTTTTTTTTTTTT#T",
    "T##################T",
    "T#TTTTTTTTTTTTTTTTTT",
    "T##################S"
  ]

  const CityMap: seq<string> := [
    "TTTETTTTTTTTTTTTTTTT",
    "TTT###############TT",
    "TTTTTTTTTTTTTTTTT#TT",
    "TTTTTTTTTTTTTTTTT#TT",
    "TTTTTTTTTTTTTTTTT#TT",
    "TTTTTTTTTTTTTTTTT#TT",
    "TTTTTTTTTTTT######TT",
    "TTTTTT#######TTTTTTT",
    "TTTTTT#TTTTTTTTTTTTT",
    "TT#####TTTTTTTTTTTTT",
    "TT#TTTTTTTTTTTTTTTTT",
    "TT#TTT###########TTT",
    "TT#TTT#TTTTTTTTT##TT",
    "TT#####TTTTTTTTTT#TT",
    "TTTTTTTTTTTTTTTTT##S"
  ]

  const HellMap: seq<string> := [
    "TTTETTTTTTTTTTTTTTTT",
    "TTT#TTTTTTTTTTTTTTTT",
    "TTT#TTTTTTTTTTTTTTTT",
    "TTT#TTTTTTTTTTTTTTTT",
    "TTT##########TTTTTTT",
    "TTTTTTTTTTTT#TTTTTTT",
    "TTTTTTTTTTTT#TTTTTTT",
    "TTTTTT#######TTTTTTT",
    "TTTTTT#T#TTTTTTTTTTT",
    "TT#####T#TTTTTTTTTTT",
    "TT#TTTTT#TTTTTTTTTTT",
    "TT#TTTTT#########TTT",
    "TT#TTTTTTTTTTTTT##TT",
    "TT#TTTTTTTTTTTTTT#TT",
    "TTSTTTTTTTTTTTTTT##S"
  ]

  const CyberMap: seq<string> := [
    "TTTETTTTTTTTTTTTTTTT",
    "TTT#TTTTTTTTTTTTTTTT",
    "TTT#TTTTTTTTTTTTTTTT",
    "TTT#######TTTTTTTTTT",
    "TTTTTTTTT#TTTTTTTTTT",
    "TTTTTT#######TTTTTTT",
    "TTTTTT#TTTTT#TTTTTTT",
    "TT#####TTTTT#TTTTTTT",
    "TT#TTTTTTTTT#TTTTTTT",
    "TT#TTTTTTTTT#####TTT",
    "TT#TTTTTTTTTTTTT#TTT",
    "TT#######TTTTTTT#TTT",
    "TTTTTTTT#TTTTTTT#TTT",
    "TTTTTTTT#########TTT",
    "TTTTTTTTTTTTTTTTT##S"
  ]

  function LevelMap(m: MapType): seq<string> {
    match m
    case Forest => ForestMap
    case City => CityMap
    case Hell => HellMap
    case Cyber => CyberMap
  }

  /** The scan reads `cols` from row 0 and indexes every row up to it. */
  predicate Rect(level: seq<string>) {
    |level| > 0 && forall y | 0 <= y < |level| :: |level[y]| >= |level[0]|
  }

  lemma LevelMapsRect(m: MapType)
    ensures Rect(LevelMap(m)) && |LevelMap(m)| == 15 && |LevelMap(m)[0]| == 20
  {
  }

  predicate InGrid(level: seq<string>, c: Cell)
    requires |level| > 0
  {
    0 <= c.y < |level| && 0 <= c.x < |level[0]|
  }

  function At(level: seq<string>, c: Cell): char
    requires Rect(level) && InGrid(level, c)
  {
    level[c.y][c.x]
  }

  predicate IsRoad(ch: char) {
    ch == 'S' || ch == 'E' || ch == '#'
  }

  /** Row-major order, the order of the scan's two nested loops. */
  predicate RowMajorBefore(a: Cell, b: Cell) {
    a.y < b.y || (a.y == b.y && a.x < b.x)
  }

  predicate RowMajor(s: seq<Cell>) {
    forall i, j | 0 <= i < j < |s| :: RowMajorBefore(s[i], s[j])
  }

  /** A 'T' cell becomes a tower spot only when its centre lies left of the tower buttons. */
  predicate IsSpot(level: seq<string>, c: Cell, offX: int, width: int)
    requires Rect(level)
  {
    InGrid(level, c) && At(level, c) == 'T' && Centre(c, offX, 0).x < width - TowerButtonsWidth
  }

  datatype EndCell = EndCell(cell: Cell, pos: Pos)

  /** What the scan of `load_map` records: `points_dict`, `tower_spots`,
      `start_positions` and `end_pos`. */
  datatype Scan = Scan(points: map<Cell, Pos>, towerSpots: seq<Pos>, starts: seq<Cell>, end: Option<EndCell>)

  /** The scan after visiting exactly the cells row-major before `Cell(x, y)`. */
  ghost predicate ScannedUpTo(level: seq<string>, offX: int, offY: int, width: int,
                              y: int, x: int, scan: Scan, spotCells: seq<Cell>)
    requires Rect(level)
  {
    var here := Cell(x, y);
    && (forall c :: c in scan.points <==> InGrid(level, c) && RowMajorBefore(c, here) && IsRoad(At(level, c)))
    && (forall c | c in scan.points :: scan.points[c] == Centre(c, offX, offY))
    && RowMajor(scan.starts)
    && (forall c :: c in scan.starts <==> InGrid(level, c) && RowMajorBefore(c, here) && At(level, c) == 'S')
    && RowMajor(spotCells)
    && (forall c :: c in spotCells <==> IsSpot(level, c, offX, width) && RowMajorBefore(c, here))
    && |scan.towerSpots| == |spotCells|
    && (forall i | 0 <= i < |spotCells| :: scan.towerSpots[i] == Centre(spotCells[i], offX, offY))
    && (scan.end.None? <==> forall c | InGrid(level, c) && RowMajorBefore(c, here) :: At(level, c) != 'E')
    && (scan.end.Some? ==>
          var e := scan.end.value.cell;
          && InGrid(level, e) && RowMajorBefore(e, here) && At(level, e) == 'E'
          && scan.end.value.pos == Centre(e, offX, offY)
          && forall c | InGrid(level, c) && RowMajorBefore(c, here) && At(level, c) == 'E' ::
               c == e || RowMajorBefore(c, e))
  }

  /** The scan of the whole map: the road cells with their centres, the tower
      spots in row-major order, the start cells in row-major order, and the
      LAST 'E' cell (a later 'E' overwrites `end_pos`). */
  ghost predicate ScanOf(level: seq<string>, offX: int, offY: int, width: int,
                         scan: Scan, spotCells: seq<Cell>)
    requires Rect(level)
  {
    && (forall c :: c in scan.points <==> InGrid(level, c) && IsRoad(At(level, c)))
    && (forall c | c in scan.points :: scan.points[c] == Centre(c, offX, offY))
    && RowMajor(scan.starts)
    && (forall c :: c in scan.starts <==> InGrid(level, c) && At(level, c) == 'S')
    && RowMajor(spotCells)
    && (forall c :: c in spotCells <==> IsSpot(level, c, offX, width))
    && |scan.towerSpots| == |spotCells|
    && (forall i | 0 <= i < |spotCells| :: scan.towerSpots[i] == Centre(spotCells[i], offX, offY))
    && (scan.end.None? <==> forall c | InGrid(level, c) :: At(level, c) != 'E')
    && (scan.end.Some? ==>
          var e := scan.end.value.cell;
          && InGrid(level, e) && At(level, e) == 'E'
          && scan.end.value.pos == Centre(e, offX, offY)
          && forall c | InGrid(level, c) && At(level, c) == 'E' :: c == e || RowMajorBefore(c, e))
  }

  lemma ScannedAll(level: seq<string>, offX: int, offY: int, width: int, scan: Scan, spotCells: seq<Cell>)
    requires Rect(level)
    requires ScannedUpTo(level, offX, offY, width, |level|, 0, scan, spotCells)
    ensures ScanOf(level, offX, offY, width, scan, spotCells)
  {
    assert forall c | InGrid(level, c) :: RowMajorBefore(c, Cell(0, |level|));
  }

  lemma ScannedRow(level: seq<string>, offX: int, offY: int, width: int, y: int,
                   scan: Scan, spotCells: seq<Cell>)
    requires Rect(level)
    requires ScannedUpTo(level, offX, offY, width, y, |level[0]|, scan, spotCells)
    ensures ScannedUpTo(level, offX, offY, width, y + 1, 0, scan, spotCells)
  {
    assert forall c | InGrid(level, c) :: RowMajorBefore(c, Cell(|level[0]|, y)) <==> RowMajorBefore(c, Cell(0, y + 1));
  }

  /** The cell loop of `load_map`. */
  method ScanLevel(level: seq<string>, offX: int, offY: int, width: int)
    returns (scan: Scan, ghost spotCells: seq<Cell>)
    requires Rect(level)
    ensures ScanOf(level, offX, offY, width, scan, spotCells)
  {
    var rows, cols := |level|, |level[0]|;
    scan, spotCells := Scan(map[], [], [], None), [];
    for y := 0 to rows
      invariant ScannedUpTo(level, offX, offY, width, y, 0, scan, spotCells)
    {
      var row := level[y];
      for x := 0 to cols
        invariant ScannedUpTo(level, offX, offY, width, y, x, scan, spotCells)
      {
        scan, spotCells := ScanCell(level, offX, offY, width, y, x, row[x], scan, spotCells);
      }
      ScannedRow(level, offX, offY, width, y, scan, spotCells);
    }
    ScannedAll(level, offX, offY, width, scan, spotCells);
  }

  /** The body of the cell loop for the cell at column `x` of row `y`. */
  method ScanCell(level: seq<string>, offX: int, offY: int, width: int, y: int, x: int, cell: char,
                  scan0: Scan, ghost spotCells0: seq<Cell>)
    returns (scan: Scan, ghost spotCells: seq<Cell>)
    requires Rect(level) && 0 <= y < |level| && 0 <= x < |level[0]| && cell == level[y][x]
    requires ScannedUpTo(level, offX, offY, width, y, x, scan0, spotCells0)
    ensures ScannedUpTo(level, offX, offY, width, y, x + 1, scan, spotCells)
  {
    var here := Cell(x, y);
    var pos := Centre(here, offX, offY);
    assert forall c :: RowMajorBefore(c, Cell(x + 1, y)) <==> RowMajorBefore(c, here) || c == here;
    scan, spotCells := scan0, spotCells0;
    if cell == 'S' {
      scan := scan.(starts := scan.starts + [here], points := scan.points[here := pos]);
    } else if cell == 'E' {
      scan := scan.(end := Some(EndCell(here, pos)), points := scan.points[here := pos]);
    } else if cell == '#' {
      scan := scan.(points := scan.points[here := pos]);
    } else if cell == 'T' {
      if pos.x < width - TowerButtonsWidth {
        scan := scan.(towerSpots := scan.towerSpots + [pos]);
        spotCells := spotCells + [here];
      }
    }
  }

  // ---------------------------------------------------------------------
  // Paths
  // ---------------------------------------------------------------------

  /** `[points_dict[cell] for cell in path]`. */
  function Waypoints(cells: seq<Cell>, points: map<Cell, Pos>): (ps: seq<Pos>)
    requires forall i | 0 <= i < |cells| :: cells[i] in points
    ensures |ps| == |cells| && forall i | 0 <= i < |cells| :: ps[i] == points[cells[i]]
  {
    seq(|cells|, i requires 0 <= i < |cells| => points[cells[i]])
  }

  ghost predicate IsShortestRoute(w: seq<Cell>, start: Cell, end: Cell, cells: set<Cell>) {
    && IsWalk(w, start, cells) && Last(w) == end && Distinct(w)
    && forall v | IsWalk(v, start, cells) && Last(v) == end :: |w| <= |v|
  }

  /** The waypoints built for one start cell: the centres along a shortest road
      route when the end is reachable, else the straight two-point fallback. */
  ghost predicate IsRouteFor(path: seq<Pos>, start: Cell, end: EndCell, points: map<Cell, Pos>)
    requires start in points
  {
    if Reachable(start, end.cell, points.Keys) then
      exists w :: IsShortestRoute(w, start, end.cell, points.Keys) && path == Waypoints(w, points)
    else
      path == [points[start], end.pos]
  }

  /** One search plus its fallback, as `create_single_path` and both halves of
      `create_paths_for_map3` do it. */
  method Route(start: Cell, end: EndCell, points: map<Cell, Pos>) returns (path: seq<Pos>)
    requires start in points
    ensures IsRouteFor(path, start, end, points)
  {
    var found := FindPathBfs(start, end.cell, points);
    if found.Some? {
      path := Waypoints(found.value, points);
      assert IsShortestRoute(found.value, start, end.cell, points.Keys);
    } else {
      path := [points[start], end.pos];
    }
  }

  /** Consecutive waypoints of a found route are the centres of adjacent
      cells, so an enemy always moves exactly one tile along an axis. */
  lemma RouteStepsOneTile(path: seq<Pos>, start: Cell, end: EndCell, points: map<Cell, Pos>,
                          offX: int, offY: int, i: nat)
    requires start in points && IsRouteFor(path, start, end, points)
    requires Reachable(start, end.cell, points.Keys)
    requires forall c | c in points :: points[c] == Centre(c, offX, offY)
    requires i + 1 < |path|
    ensures (path[i].x == path[i + 1].x && (path[i + 1].y - path[i].y == TileSize || path[i].y - path[i + 1].y == TileSize))
         || (path[i].y == path[i + 1].y && (path[i + 1].x - path[i].x == TileSize || path[i].x - path[i + 1].x == TileSize))
  {
    var w :| IsShortestRoute(w, start, end.cell, points.Keys) && path == Waypoints(w, points);
    assert Adjacent(w[i], w[i + 1]);
  }

  /** A route starts on the start cell's centre and ends on the end position,
      and always has at least two waypoints when start and end differ. */
  lemma RouteEndpoints(path: seq<Pos>, start: Cell, end: EndCell, points: map<Cell, Pos>)
    requires start in points && IsRouteFor(path, start, end, points)
    requires start != end.cell
    requires end.cell in points ==> points[end.cell] == end.pos
    ensures |path| >= 2 && path[0] == points[start] && Last(path) == end.pos
  {
    if Reachable(start, end.cell, points.Keys) {
      var w :| IsShortestRoute(w, start, end.cell, points.Keys) && path == Waypoints(w, points);
      assert Last(w) in points;
    }
  }

  /** What `load_map` leaves in the game: the map offset, the scan and the two paths. */
  datatype Layout = Layout(offX: int, offY: int, scan: Scan, path1: seq<Pos>, path2: seq<Pos>)

  /** `map_offset_x`/`map_offset_y`: the map centred in the area left of the
      tower buttons and above the bottom panel (`//` floors, as `/` does here
      for a positive divisor). */
  function Offsets(level: seq<string>, width: int, height: int): (r: (int, int))
    requires Rect(level)
    ensures 2 * r.0 <= width - TowerButtonsWidth - |level[0]| * TileSize < 2 * r.0 + 2
    ensures 2 * r.1 <= height - UiHeight - |level| * TileSize < 2 * r.1 + 2
  {
    ((width - TowerButtonsWidth - |level[0]| * TileSize) / 2,
     (height - UiHeight - |level| * TileSize) / 2)
  }

  /** The fallback of `load_map` when no path was built: the start cell's
      centre or (2, 13) tiles, to the end position or (19, 2) tiles. */
  function FallbackPath(scan: Scan, offX: int, offY: int): (p: seq<Pos>)
    requires |scan.starts| > 0 ==> scan.starts[0] in scan.points
    ensures |p| == 2
  {
    var s := if scan.starts == [] then Pos(TileSize * 2 + offX, TileSize * 13 + offY)
             else scan.points[scan.starts[0]];
    var e := if scan.end.None? then Pos(TileSize * 19 + offX, TileSize * 2 + offY)
             else scan.end.value.pos;
    [s, e]
  }

  /** `load_map` with its path construction. `path1Old`/`path2Old` are the
      paths already held by the game: `load_map` never clears them, so the
      second path survives a reload on a single-path map, and the first one
      survives when no path could be built. */
  method LoadLevel(level: seq<string>, hell: bool, width: int, height: int,
                   path1Old: seq<Pos>, path2Old: seq<Pos>)
    returns (layout: Layout, ghost spotCells: seq<Cell>)
    requires Rect(level)
    ensures (layout.offX, layout.offY) == Offsets(level, width, height)
    ensures ScanOf(level, layout.offX, layout.offY, width, layout.scan, spotCells)
    ensures var s := layout.scan;
      if hell && |s.starts| >= 2 && s.end.Some? then
        && IsRouteFor(layout.path1, s.starts[0], s.end.value, s.points)
        && IsRouteFor(layout.path2, s.starts[1], s.end.value, s.points)
      else if !(hell && |s.starts| >= 2) && |s.starts| >= 1 && s.end.Some? then
        IsRouteFor(layout.path1, s.starts[0], s.end.value, s.points) && layout.path2 == path2Old
      else
        && layout.path1 == (if path1Old != [] then path1Old else FallbackPath(s, layout.offX, layout.offY))
        && layout.path2 == path2Old
    ensures |layout.path1| >= 2 || layout.path1 == path1Old != []
  {
    var off := Offsets(level, width, height);
    var scan;
    scan, spotCells := ScanLevel(level, off.0, off.1, width);
    var path1, path2 := path1Old, path2Old;
    if hell && |scan.starts| >= 2 {
      if scan.end.Some? {
        path1 := Route(scan.starts[0], scan.end.value, scan.points);
        path2 := Route(scan.starts[1], scan.end.value, scan.points);
        StartIsNotEnd(level, off.0, off.1, width, scan, spotCells, scan.starts[0]);
        RouteEndpoints(path1, scan.starts[0], scan.end.value, scan.points);
      }
    } else if |scan.starts| >= 1 && scan.end.Some? {
      path1 := Route(scan.starts[0], scan.end.value, scan.points);
      StartIsNotEnd(level, off.0, off.1, width, scan, spotCells, scan.starts[0]);
      RouteEndpoints(path1, scan.starts[0], scan.end.value, scan.points);
    }
    if path1 == [] {
      path1 := FallbackPath(scan, off.0, off.1);
    }
    layout := Layout(off.0, off.1, scan, path1, path2);
  }

  /** `load_map` on one of the four maps: afterwards the first path has at
      least two waypoints, unless it is the old one, which is not empty. */
  method LoadMapOf(m: MapType, width: int, height: int, path1Old: seq<Pos>, path2Old: seq<Pos>)
    returns (layout: Layout)
    ensures |layout.path1| >= 2 || layout.path1 == path1Old != []
    ensures m != Hell ==> layout.path2 == path2Old
  {
    LevelMapsRect(m);
    ghost var spotCells;
    layout, spotCells := LoadLevel(LevelMap(m), m == Hell, width, height, path1Old, path2Old);
  }

  lemma StartIsNotEnd(level: seq<string>, offX: int, offY: int, width: int, scan: Scan,
                      spotCells: seq<Cell>, s: Cell)
    requires Rect(level) && ScanOf(level, offX, offY, width, scan, spotCells)
    requires s in scan.starts && scan.end.Some?
    ensures s in scan.points && s != scan.end.value.cell
    ensures scan.end.value.cell in scan.points && scan.points[scan.end.value.cell] == scan.end.value.pos
  {
  }
}
