/** The high-score table: rows of the score file (already split into fields
    by the CSV reader), parsed with Python's `int()` rules, kept when well
    formed, and ranked by score, best first, ties in file order. */
module Scores {
  import opened Common
  import StableSort

  datatype ScoreRecord = ScoreRecord(name: string, score: int, level: int, waves: int,
                                     difficulty: string, mapName: string, date: string)

  /** The ASCII whitespace `int()` strips: space, tab, line feed, vertical
      tab, form feed, carriage return. */
  predicate IsSpace(c: char) {
    c == ' ' || '\t' <= c <= '\r'
  }

  predicate IsDigit(c: char) {
    '0' <= c <= '9'
  }

  function StripLeft(s: string): (r: string)
    ensures r == [] || !IsSpace(r[0])
    ensures |r| <= |s| && r == s[|s| - |r|..]
    ensures forall i | 0 <= i < |s| - |r| :: IsSpace(s[i])
  {
    if s != [] && IsSpace(s[0]) then StripLeft(s[1..]) else s
  }

  function StripRight(s: string): (r: string)
    ensures r == [] || !IsSpace(r[|r| - 1])
    ensures |r| <= |s| && r == s[..|r|]
    ensures forall i | |r| <= i < |s| :: IsSpace(s[i])
  {
    if s != [] && IsSpace(s[|s| - 1]) then StripRight(s[..|s| - 1]) else s
  }

  /** A run of decimal digits in which single underscores may separate digits. */
  predicate DigitRun(b: string) {
    && |b| > 0 && IsDigit(b[0]) && IsDigit(b[|b| - 1])
    && (forall i | 0 <= i < |b| :: IsDigit(b[i]) || b[i] == '_')
    && (forall i | 0 <= i < |b| - 1 :: b[i] == '_' ==> b[i + 1] != '_')
  }

  /** The number the digits of `b` spell, underscores skipped. */
  function DigitsValue(b: string): nat {
    if b == [] then 0
    else if IsDigit(b[|b| - 1]) then 10 * DigitsValue(b[..|b| - 1]) + (b[|b| - 1] as int - '0' as int)
    else DigitsValue(b[..|b| - 1])
  }

  /** `int(s)` for a string: surrounding whitespace, an optional sign, then
      a digit run; anything else is a `ValueError` (`None`). */
  function ParseInt(s: string): Option<int> {
    ParseSigned(Strip(s))
  }

  function Strip(s: string): string {
    StripRight(StripLeft(s))
  }

  function ParseSigned(t: string): Option<int> {
    if t != [] && (t[0] == '-' || t[0] == '+') then
      var magnitude: int := DigitsValue(t[1..]);
      if DigitRun(t[1..]) then Some(if t[0] == '-' then -magnitude else magnitude) else None
    else if DigitRun(t) then Some(DigitsValue(t))
    else None
  }

  /** Text with no whitespace at either end is not stripped. */
  lemma NothingToStrip(s: string)
    requires s != [] && !IsSpace(s[0]) && !IsSpace(s[|s| - 1])
    ensures Strip(s) == s
  {
  }

  /** `str(n)`: what the CSV writer stores for an integer field. */
  function Show(n: int): string {
    if n < 0 then "-" + ShowNat(-n) else ShowNat(n)
  }

  function ShowNat(m: nat): (r: string)
    ensures |r| > 0 && forall i | 0 <= i < |r| :: IsDigit(r[i])
  {
    if m < 10 then [('0' as int + m) as char] else ShowNat(m / 10) + [('0' as int + m % 10) as char]
  }

  lemma {:induction false} ShowNatValue(m: nat)
    ensures DigitRun(ShowNat(m)) && DigitsValue(ShowNat(m)) == m
  {
    var r := ShowNat(m);
    if m >= 10 {
      ShowNatValue(m / 10);
      assert r[..|r| - 1] == ShowNat(m / 10);
    }
  }

  /** Every integer the game writes reads back as itself. */
  lemma ParseShow(n: int)
    ensures ParseInt(Show(n)) == Some(n)
  {
    var m: nat := if n < 0 then -n else n;
    ShowNatValue(m);
    if n < 0 {
      ParseNegated(ShowNat(m));
    } else {
      ParseDigits(ShowNat(m));
    }
  }

  /** A digit run parses to its value... */
  lemma ParseDigits(d: string)
    requires DigitRun(d)
    ensures ParseInt(d) == Some(DigitsValue(d))
  {
    NothingToStrip(d);
    UnsignedParse(d);
  }

  /** With no sign in front, a digit run is read as it stands. */
  lemma UnsignedParse(d: string)
    requires DigitRun(d)
    ensures ParseSigned(d) == Some(DigitsValue(d))
  {
  }

  /** ...and to minus its value behind a minus sign. */
  lemma ParseNegated(d: string)
    requires DigitRun(d)
    ensures ParseInt("-" + d) == Some(-(DigitsValue(d) as int))
  {
    var s := "-" + d;
    assert s[|s| - 1] == d[|d| - 1];
    NothingToStrip(s);
    assert s[1..] == d;
  }

  /** One `csv.reader` row: at least seven fields, and fields 1 to 3 must
      be integers. */
  function ParseRow(row: seq<string>): (r: Option<ScoreRecord>)
    ensures r.Some? <==> |row| >= 7 && ParseInt(row[1]).Some? && ParseInt(row[2]).Some? && ParseInt(row[3]).Some?
  {
    if |row| < 7 then None
    else match (ParseInt(row[1]), ParseInt(row[2]), ParseInt(row[3]))
      case (Some(score), Some(level), Some(waves)) =>
        Some(ScoreRecord(row[0], score, level, waves, row[4], row[5], row[6]))
      case _ => None
  }

  /** The row `save_score` appends for a record. */
  function Row(r: ScoreRecord): seq<string> {
    [r.name, Show(r.score), Show(r.level), Show(r.waves), r.difficulty, r.mapName, r.date]
  }

  /** A saved score loads back unchanged. */
  lemma SavedRowLoads(r: ScoreRecord)
    ensures ParseRow(Row(r)) == Some(r)
  {
    var row := Row(r);
    assert |row| == 7 && row[1] == Show(r.score) && row[2] == Show(r.level) && row[3] == Show(r.waves);
    assert row[0] == r.name && row[4] == r.difficulty && row[5] == r.mapName && row[6] == r.date;
    ParseShow(r.score);
    ParseShow(r.level);
    ParseShow(r.waves);
    ParseFields(row, r.score, r.level, r.waves);
  }

  lemma ParseFields(row: seq<string>, score: int, level: int, waves: int)
    requires |row| >= 7
    requires ParseInt(row[1]) == Some(score) && ParseInt(row[2]) == Some(level) && ParseInt(row[3]) == Some(waves)
    ensures ParseRow(row) == Some(ScoreRecord(row[0], score, level, waves, row[4], row[5], row[6]))
  {
  }

  /** The records of the rows that parse, in file order. */
  function Parsed(rows: seq<seq<string>>): seq<ScoreRecord> {
    if rows == [] then []
    else
      var last := ParseRow(rows[|rows| - 1]);
      Parsed(rows[..|rows| - 1]) + (if last.Some? then [last.value] else [])
  }

  lemma {:induction false} ParsedExactly(rows: seq<seq<string>>, x: ScoreRecord)
    ensures x in Parsed(rows) <==> exists row | row in rows :: ParseRow(row) == Some(x)
  {
    if rows != [] {
      var n := |rows| - 1;
      ParsedExactly(rows[..n], x);
      assert rows == rows[..n] + [rows[n]];
    }
  }

  /** The records keyed for an ascending stable sort: the key is the negated
      score, so the sort is `sorted(..., reverse=True)`, which keeps file order
      among equal scores. */
  function Keys(scores: seq<ScoreRecord>): (k: seq<StableSort.Keyed<ScoreRecord>>)
    ensures |k| == |scores|
  {
    seq(|scores|, i requires 0 <= i < |scores| => StableSort.Keyed(-(scores[i].score as real), i, scores[i]))
  }

  function Ranked(scores: seq<ScoreRecord>): (r: seq<StableSort.Keyed<ScoreRecord>>)
    ensures |r| == |scores|
  {
    StableSort.Sort(Keys(scores))
  }

  /** The first ten of the ranking. */
  function TopScores(scores: seq<ScoreRecord>): (r: seq<ScoreRecord>)
    ensures |r| == if |scores| <= 10 then |scores| else 10
  {
    var ranked := Ranked(scores);
    StableSort.Items(if |ranked| <= 10 then ranked else ranked[..10])
  }

  /** An entry of the ranking is some record of the input under its own key. */
  lemma RankedEntry(scores: seq<ScoreRecord>, i: nat)
    requires i < |scores|
    ensures var x := Ranked(scores)[i];
      x.index < |scores| && x.item == scores[x.index] && x.key == -(x.item.score as real)
  {
    var x := Ranked(scores)[i];
    StableSort.SortSameEntries(Keys(scores), x);
    assert x in Keys(scores);
  }

  /** The table lists records of the input. */
  lemma TopScoresFromInput(scores: seq<ScoreRecord>, i: nat)
    requires i < |TopScores(scores)|
    ensures TopScores(scores)[i] in scores
  {
    RankedEntry(scores, i);
  }

  /** Best first; equal scores stay in file order. */
  lemma TopScoresDescending(scores: seq<ScoreRecord>, i: nat, j: nat)
    requires i < j < |TopScores(scores)|
    ensures TopScores(scores)[i].score >= TopScores(scores)[j].score
    ensures TopScores(scores)[i].score == TopScores(scores)[j].score ==>
              Ranked(scores)[i].index < Ranked(scores)[j].index
  {
    var ranked := Ranked(scores);
    StableSort.SortStable(Keys(scores));
    assert StableSort.Before(ranked[i], ranked[j]);
    RankedEntry(scores, i);
    RankedEntry(scores, j);
  }

  /** Nothing better is left out: with ten or fewer records all are listed,
      and a record scoring above the tenth entry is listed. */
  lemma TopScoresKeepsBest(scores: seq<ScoreRecord>, p: nat)
    requires p < |scores|
    ensures |scores| <= 10 ==> scores[p] in TopScores(scores)
    ensures |scores| > 10 && scores[p].score > TopScores(scores)[9].score ==> scores[p] in TopScores(scores)
  {
    var ranked := Ranked(scores);
    var r := TopScores(scores);
    var x := Keys(scores)[p];
    StableSort.SortSameEntries(Keys(scores), x);
    var q :| 0 <= q < |ranked| && ranked[q] == x;
    if q < 10 {
      assert r[q] == scores[p];
    } else {
      StableSort.SortStable(Keys(scores));
      StableSort.PrefixSmallest(ranked, 10, 9, q);
      RankedEntry(scores, 9);
    }
  }

  /** `load_scores`: collect the well-formed rows, then rank them. */
  method LoadScores(rows: seq<seq<string>>) returns (top: seq<ScoreRecord>)
    ensures top == TopScores(Parsed(rows))
    ensures |top| <= 10
    ensures forall x | x in top :: exists row | row in rows :: ParseRow(row) == Some(x)
  {
    var scores := [];
    for i := 0 to |rows|
      invariant scores == Parsed(rows[..i])
    {
      assert rows[..i + 1][..i] == rows[..i];
      var parsed := ParseRow(rows[i]);
      if parsed.Some? {
        scores := scores + [parsed.value];
      }
    }
    assert rows[..|rows|] == rows;
    top := TopScores(scores);
    forall x | x in top ensures exists row | row in rows :: ParseRow(row) == Some(x) {
      var i :| 0 <= i < |top| && top[i] == x;
      TopScoresFromInput(scores, i);
      RankedEntry(scores, i);
      ParsedExactly(rows, x);
    }
  }
}
