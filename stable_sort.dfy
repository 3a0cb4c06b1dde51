/** Python's `list.sort(key=...)` and `sorted(...)` are stable. Both uses in the
    game (targets by distance, score rows by score) are modelled by one stable
    insertion sort over keyed entries that remember their position in the
    input; stability is then the statement that the output is ordered by
    (key, original position). */
module StableSort {

  datatype Keyed<T> = Keyed(key: real, index: nat, item: T)

  /** The entries without their keys. */
  function Items<T>(s: seq<Keyed<T>>): (r: seq<T>)
    ensures |r| == |s| && forall i | 0 <= i < |s| :: r[i] == s[i].item
  {
    if s == [] then [] else [s[0].item] + Items(s[1..])
  }

  /** `a` comes before `b` in a stable sort by key. */
  predicate Before<T>(a: Keyed<T>, b: Keyed<T>) {
    a.key < b.key || (a.key == b.key && a.index < b.index)
  }

  predicate LexSorted<T>(s: seq<Keyed<T>>) {
    forall i, j | 0 <= i < j < |s| :: Before(s[i], s[j])
  }

  /** Entries listed in input order, as every list the game sorts is built. */
  predicate IndicesIncreasing<T>(s: seq<Keyed<T>>) {
    forall i, j | 0 <= i < j < |s| :: s[i].index < s[j].index
  }

  /** Places `x` after every entry whose key is not larger. */
  function Insert<T>(s: seq<Keyed<T>>, x: Keyed<T>): (r: seq<Keyed<T>>)
    ensures |r| == |s| + 1
    ensures multiset(r) == multiset(s) + multiset{x}
  {
    if s == [] then [x]
    else if x.key < s[0].key then [x] + s
    else
      assert s == [s[0]] + s[1..];
      [s[0]] + Insert(s[1..], x)
  }

  function Sort<T>(s: seq<Keyed<T>>): (r: seq<Keyed<T>>)
    ensures |r| == |s|
    ensures multiset(r) == multiset(s)
  {
    if s == [] then []
    else
      assert s == s[..|s| - 1] + [s[|s| - 1]];
      Insert(Sort(s[..|s| - 1]), s[|s| - 1])
  }

  lemma {:induction false} InsertSorted<T>(s: seq<Keyed<T>>, x: Keyed<T>)
    requires LexSorted(s)
    requires forall y | y in s :: y.index < x.index
    ensures LexSorted(Insert(s, x))
  {
    if s != [] && x.key >= s[0].key {
      var t := Insert(s[1..], x);
      InsertSorted(s[1..], x);
      assert forall y | y in t :: y in s[1..] || y == x by {
        forall y | y in t ensures y in s[1..] || y == x {
          assert y in multiset(t);
        }
      }
      forall j | 0 <= j < |t| ensures Before(s[0], t[j]) {
        if t[j] != x {
          assert t[j] in s[1..];
          var k :| 0 <= k < |s[1..]| && s[1..][k] == t[j];
          assert s[1 + k] == t[j];
        }
      }
    }
  }

  /** The sort is stable: on input listed in order, the output is sorted by key
      and, among equal keys, keeps the input order. */
  lemma {:induction false} SortStable<T>(s: seq<Keyed<T>>)
    requires IndicesIncreasing(s)
    ensures LexSorted(Sort(s))
  {
    if s != [] {
      var init, x := s[..|s| - 1], s[|s| - 1];
      SortStable(init);
      forall y | y in Sort(init) ensures y.index < x.index {
        assert y in multiset(Sort(init));
        assert y in init;
      }
      InsertSorted(Sort(init), x);
    }
  }

  /** Sorting keeps exactly the same entries. */
  lemma SortSameEntries<T>(s: seq<Keyed<T>>, y: Keyed<T>)
    ensures y in Sort(s) <==> y in s
  {
    assert y in Sort(s) <==> y in multiset(Sort(s));
  }

  /** In a stably sorted list, every entry the first `k` leave out has a key no
      smaller than any they keep: taking a prefix selects the `k` smallest keys. */
  lemma PrefixSmallest<T>(r: seq<Keyed<T>>, k: nat, i: nat, j: nat)
    requires LexSorted(r)
    requires i < k <= j < |r|
    ensures r[i].key <= r[j].key
  {
    assert Before(r[i], r[j]);
  }
}
