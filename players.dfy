/** Player rows as the selector sees them once the statistics table has been parsed. */
module Players {

  /** One row of the statistics table. Strike rate and economy are carried to the output untouched. */
  datatype Row = Row(
    player: string,
    country: string,
    role: string,
    runs: nat,
    wickets: nat,
    strikeRate: real,
    economy: real)

  /** A row of a data frame: its index label (the row's position in the loaded table) and its contents. */
  datatype Entry = Entry(index: nat, row: Row)

  predicate IsUpper(c: char) {
    'A' <= c <= 'Z'
  }

  /** Lower-casing of one character; only the ASCII letters A-Z are mapped. */
  function LowerChar(c: char): (d: char) {
    if IsUpper(c) then (c as int - 'A' as int + 'a' as int) as char else c
  }

  /**
   * Lower-casing of a string, character by character: no upper-case letter
   * is left, every other character stays, and each letter keeps its place.
   */
  function Lower(s: string): (r: string)
    ensures |r| == |s|
    ensures forall i :: 0 <= i < |s| ==> !IsUpper(r[i])
    ensures forall i :: 0 <= i < |s| && !IsUpper(s[i]) ==> r[i] == s[i]
    ensures forall i :: 0 <= i < |s| && IsUpper(s[i]) ==> r[i] as int == s[i] as int + 32
  {
    seq(|s|, i requires 0 <= i < |s| => LowerChar(s[i]))
  }

  /** Lower-casing twice is lower-casing once. */
  lemma LowerIdempotent(s: string)
    ensures Lower(Lower(s)) == Lower(s)
  {
  }

  /** The selection score of the source's formula, two cents a run and twenty-five a wicket, over the reals. */
  function SourceScore(runs: nat, wickets: nat): (x: real) {
    runs as real * 0.02 + wickets as real * 25.0
  }

  /** The selection score scaled by 50, so that it is a natural number. */
  function ScaledScore(runs: nat, wickets: nat): (s: nat)
    ensures s as real == 50.0 * SourceScore(runs, wickets)
  {
    runs + 1250 * wickets
  }

  function Score(r: Row): (s: nat) {
    ScaledScore(r.runs, r.wickets)
  }

  /** Ranking by the scaled score orders rows exactly as ranking by the real-valued formula does. */
  lemma ScoreOrderMatchesSource(a: Row, b: Row)
    ensures Score(a) <= Score(b) <==> SourceScore(a.runs, a.wickets) <= SourceScore(b.runs, b.wickets)
    ensures Score(a) == Score(b) <==> SourceScore(a.runs, a.wickets) == SourceScore(b.runs, b.wickets)
  {
  }
}
