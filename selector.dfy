/**
 * The best-XI selection pass: normalise roles, drop the opponent's players,
 * score, take the top rows of each role, join the groups, pick a captain and
 * project every chosen row into an output record.
 */
module Selector {
  import opened Players
  import opened Ranking

  datatype Option<T> = None | Some(value: T)

  datatype Result<T, E> = Ok(value: T) | Err(error: E)

  /** Looking up the captain in an empty lineup raises (`.iloc[0]` on an empty frame). */
  datatype SelectError = EmptyLineup

  /** One output record, as the selector returns it for each chosen row. */
  datatype Record = Record(
    player: string,
    role: string,
    country: string,
    runs: nat,
    sr: real,
    wickets: nat,
    economy: real,
    captain: bool,
    viceCaptain: bool)

  const BatRoles: set<string> := {"batsman", "batter"}
  const AllRounderRoles: set<string> := {"allrounder"}
  const BowlerRoles: set<string> := {"bowler"}

  const BatQuota: nat := 5
  const AllRounderQuota: nat := 2
  const BowlerQuota: nat := 4
  const LineupSize: nat := 11

  /** The loaded table as a data frame: every row under its position as index label. */
  function Frame(t: seq<Row>): (f: seq<Entry>) {
    seq(|t|, i requires 0 <= i < |t| => Entry(i, t[i]))
  }

  /** The whole column of roles lower-cased. */
  function Normalise(t: seq<Row>): (n: seq<Row>) {
    seq(|t|, i requires 0 <= i < |t| => t[i].(role := Lower(t[i].role)))
  }

  /** Python truthiness of the opponent argument: neither absent nor the empty string. */
  predicate Truthy(opponent: Option<string>) {
    opponent.Some? && opponent.value != ""
  }

  /** A row the opponent filter drops. */
  predicate Excluded(r: Row, opponent: Option<string>) {
    Truthy(opponent) && Lower(r.country) == Lower(opponent.value)
  }

  /** The frame left after the opponent filter. */
  function Pool(t: seq<Row>, opponent: Option<string>): (p: seq<Entry>) {
    Where(Frame(t), (r: Row) => !Excluded(r, opponent))
  }

  /** The rows of the filtered frame whose role is one of `roles`. */
  function Group(t: seq<Row>, opponent: Option<string>, roles: set<string>): (g: seq<Entry>) {
    Where(Pool(t, opponent), (r: Row) => r.role in roles)
  }

  /** `head(n)`: a prefix of at most `n` entries, the whole frame when it is no longer than `n`. */
  function Head(s: seq<Entry>, n: nat): (h: seq<Entry>)
    ensures |h| <= n && h <= s
    ensures |s| <= n ==> h == s
  {
    s[..Min(n, |s|)]
  }

  /** The chosen rows of a table whose roles are already normalised, in lineup order. */
  function Lineup(t: seq<Row>, opponent: Option<string>): (xi: seq<Entry>)
    ensures |xi| <= LineupSize
  {
    Head(TopN(Group(t, opponent, BatRoles), BatQuota)
         + TopN(Group(t, opponent, AllRounderRoles), AllRounderQuota)
         + TopN(Group(t, opponent, BowlerRoles), BowlerQuota),
         LineupSize)
  }

  /**
   * The position of the captain's row: the row a descending sort on the
   * score puts first, that is the first row of highest score.
   */
  function CaptainIndex(xi: seq<Entry>): (k: nat)
    requires |xi| > 0
    ensures k < |xi|
    ensures forall j :: 0 <= j < |xi| ==> Score(xi[j].row) <= Score(xi[k].row)
    ensures forall j :: 0 <= j < k ==> Score(xi[j].row) < Score(xi[k].row)
  {
    if |xi| == 1 then 0
    else
      var k := CaptainIndex(xi[1..]);
      if Score(xi[0].row) >= Score(xi[1 + k].row) then 0 else 1 + k
  }

  /** The output record of one chosen row; the captain flag compares names. */
  function ToRecord(r: Row, captain: string): (o: Record) {
    Record(r.player, r.role, r.country, r.runs, r.strikeRate, r.wickets, r.economy,
           r.player == captain, false)
  }

  function Records(xi: seq<Entry>, captain: string): (out: seq<Record>) {
    seq(|xi|, k requires 0 <= k < |xi| => ToRecord(xi[k].row, captain))
  }

  /** What the selector returns for the table and the request's arguments. */
  function BestXi(table: seq<Row>, pitchType: string, opponent: Option<string>, venue: Option<string>)
    : (r: Result<seq<Record>, SelectError>)
    ensures r.Err? <==> Lineup(Normalise(table), opponent) == []
    ensures r.Ok? ==> |r.value| == |Lineup(Normalise(table), opponent)| <= LineupSize
  {
    var xi := Lineup(Normalise(table), opponent);
    if xi == [] then Err(EmptyLineup)
    else Ok(Records(xi, xi[CaptainIndex(xi)].row.player))
  }

  /** The output loop: one record appended per chosen row, in lineup order. */
  method Present(xi: seq<Entry>, captain: string) returns (result: seq<Record>)
    ensures result == Records(xi, captain)
  {
    result := [];
    var i := 0;
    while i < |xi|
      invariant 0 <= i <= |xi|
      invariant |result| == i
      invariant forall k :: 0 <= k < i ==> result[k] == ToRecord(xi[k].row, captain)
    {
      result := result + [ToRecord(xi[i].row, captain)];
      i := i + 1;
    }
  }

  /** The selection pass. The pitch type and the venue are accepted and not used. */
  method AutoBestXi(table: seq<Row>, pitchType: string, opponent: Option<string>, venue: Option<string>)
    returns (r: Result<seq<Record>, SelectError>)
    ensures r == BestXi(table, pitchType, opponent, venue)
    ensures r.Err? <==> Lineup(Normalise(table), opponent) == []
  {
    var df := Normalise(table);
    var xi := Lineup(df, opponent);
    if |xi| == 0 {
      return Err(EmptyLineup);
    }
    var captain := xi[CaptainIndex(xi)].row.player;
    var result := Present(xi, captain);
    return Ok(result);
  }
}
