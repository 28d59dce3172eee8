/** What the selection pass guarantees about the lineup it returns. */
module SelectorProperties {
  import opened Players
  import opened Ranking
  import opened Selector

  const SelectableRoles: set<string> := BatRoles + AllRounderRoles + BowlerRoles

  /** Lineup order of the role groups: batters, then all-rounders, then bowlers. */
  function RoleRank(role: string): (rank: nat) {
    if role in BatRoles then 0
    else if role in AllRounderRoles then 1
    else if role in BowlerRoles then 2
    else 3
  }

  /** The (scaled) selection score of an output record, from the runs and wickets it carries. */
  function RecordScore(o: Record): (s: nat) {
    ScaledScore(o.runs, o.wickets)
  }

  /** How many records have one of `roles`. */
  function CountRoles(out: seq<Record>, roles: set<string>): (n: nat) {
    if out == [] then 0
    else (if out[0].role in roles then 1 else 0) + CountRoles(out[1..], roles)
  }

  /** An output record carries exactly the columns of a row of the raw table, its role lower-cased. */
  predicate SameRow(o: Record, r: Row) {
    o.player == r.player && o.role == Lower(r.role) && o.country == r.country
    && o.runs == r.runs && o.sr == r.strikeRate && o.wickets == r.wickets && o.economy == r.economy
  }

  /** Records come grouped by role rank and, within one rank, by descending score. */
  predicate Ranked(out: seq<Record>) {
    forall i, j :: 0 <= i < j < |out| ==>
      RoleRank(out[i].role) < RoleRank(out[j].role)
      || (RoleRank(out[i].role) == RoleRank(out[j].role) && RecordScore(out[j]) <= RecordScore(out[i]))
  }

  /**
   * Record `j` is the first of the highest-scoring records, it is captain,
   * and every record is captain exactly when it bears record `j`'s name.
   */
  predicate CaptainedBy(out: seq<Record>, j: nat) {
    j < |out|
    && (forall k :: 0 <= k < |out| ==> RecordScore(out[k]) <= RecordScore(out[j]))
    && (forall k :: 0 <= k < j ==> RecordScore(out[k]) < RecordScore(out[j]))
    && (forall k :: 0 <= k < |out| ==> (out[k].captain <==> out[k].player == out[j].player))
    && out[j].captain
  }

  // ---------------------------------------------------------------------
  // Frames, masks and groups

  /** Normalising changes only the role column, to its lower-cased form. */
  lemma NormaliseColumns(t: seq<Row>)
    ensures |Normalise(t)| == |t|
    ensures forall i :: 0 <= i < |t| ==>
      Normalise(t)[i].role == Lower(t[i].role) && Normalise(t)[i].(role := t[i].role) == t[i]
  {
  }

  /** A normalised table is left as it is by a second normalisation. */
  lemma NormaliseIdempotent(t: seq<Row>)
    ensures Normalise(Normalise(t)) == Normalise(t)
  {
    forall i | 0 <= i < |t| ensures Normalise(Normalise(t))[i] == Normalise(t)[i] {
      LowerIdempotent(t[i].role);
    }
  }

  /** An output record carries the score of the row it was projected from. */
  lemma RecordKeepsScore(r: Row, captain: string)
    ensures RecordScore(ToRecord(r, captain)) == Score(r)
    ensures ToRecord(r, captain).captain <==> r.player == captain
  {
  }

  lemma FrameMembers(t: seq<Row>)
    ensures forall e :: e in Frame(t) <==> e.index < |t| && e.row == t[e.index]
    ensures Increasing(Frame(t))
  {
    forall e: Entry | e.index < |t| && e.row == t[e.index] ensures e in Frame(t) {
      assert Frame(t)[e.index] == e;
    }
  }

  /** An entry is in a role group exactly when it is a row of the table that survives the opponent filter and has one of the roles. */
  lemma GroupMembers(t: seq<Row>, opponent: Option<string>, roles: set<string>)
    ensures forall e :: e in Group(t, opponent, roles) <==>
      e.index < |t| && e.row == t[e.index] && !Excluded(e.row, opponent) && e.row.role in roles
    ensures Increasing(Group(t, opponent, roles))
  {
    FrameMembers(t);
    WhereIncreasing(Frame(t), (r: Row) => !Excluded(r, opponent));
    WhereIncreasing(Pool(t, opponent), (r: Row) => r.role in roles);
  }

  lemma TopNMembers(s: seq<Entry>, n: nat, x: Entry)
    requires x in TopN(s, n)
    ensures x in s
  {
    assert x in multiset(TopN(s, n));
  }

  /** `sel` could be the picks of the role group `roles` under quota `n`: ranked rows of that group, without repeats. */
  predicate Picks(t: seq<Row>, opponent: Option<string>, roles: set<string>, n: nat, sel: seq<Entry>) {
    |sel| <= n && Sorted(sel) && NoDup(sel)
    && forall e :: e in sel ==>
         e.index < |t| && e.row == t[e.index] && !Excluded(e.row, opponent) && e.row.role in roles
  }

  /** Batter, all-rounder and bowler picks, each within its quota. */
  predicate AllPicks(t: seq<Row>, opponent: Option<string>, a: seq<Entry>, b: seq<Entry>, c: seq<Entry>) {
    Picks(t, opponent, BatRoles, BatQuota, a)
    && Picks(t, opponent, AllRounderRoles, AllRounderQuota, b)
    && Picks(t, opponent, BowlerRoles, BowlerQuota, c)
  }

  /** The picks of a role group: as many rows of that group as the quota allows, ranked, without repeats. */
  lemma PicksOfGroup(t: seq<Row>, opponent: Option<string>, roles: set<string>, n: nat)
    ensures var g := Group(t, opponent, roles);
      |TopN(g, n)| == Min(n, |g|) && Picks(t, opponent, roles, n, TopN(g, n))
      && forall e :: e in TopN(g, n) ==> e in g
  {
    var g := Group(t, opponent, roles);
    GroupMembers(t, opponent, roles);
    IncreasingNoDup(g);
    forall e | e in TopN(g, n) ensures e in g {
      TopNMembers(g, n, e);
    }
  }

  // ---------------------------------------------------------------------
  // The opponent filter

  /**
   * The pool holds each table row under its own label unless the opponent is
   * given, non-empty and equal to the row's country once both are lower-cased.
   */
  lemma PoolMembers(t: seq<Row>, opponent: Option<string>)
    ensures forall e :: e in Pool(t, opponent) <==>
      e.index < |t| && e.row == t[e.index]
      && !(opponent.Some? && opponent.value != "" && Lower(e.row.country) == Lower(opponent.value))
    ensures Increasing(Pool(t, opponent))
  {
    FrameMembers(t);
    WhereIncreasing(Frame(t), (r: Row) => !Excluded(r, opponent));
  }

  /** Without a truthy opponent (absent or empty) the filter keeps every row. */
  lemma NoFilterWhenFalsy(t: seq<Row>, opponent: Option<string>)
    requires !Truthy(opponent)
    ensures Pool(t, opponent) == Frame(t)
  {
    WhereAll(Frame(t), (r: Row) => !Excluded(r, opponent));
  }

  // ---------------------------------------------------------------------
  // The lineup as entries

  /** The three role groups joined make at most eleven rows, so `head(11)` cuts nothing. */
  lemma LineupShape(t: seq<Row>, opponent: Option<string>)
    ensures var a := TopN(Group(t, opponent, BatRoles), BatQuota);
      var b := TopN(Group(t, opponent, AllRounderRoles), AllRounderQuota);
      var c := TopN(Group(t, opponent, BowlerRoles), BowlerQuota);
      Lineup(t, opponent) == a + b + c
      && |a| == Min(BatQuota, |Group(t, opponent, BatRoles)|)
      && |b| == Min(AllRounderQuota, |Group(t, opponent, AllRounderRoles)|)
      && |c| == Min(BowlerQuota, |Group(t, opponent, BowlerRoles)|)
      && |Lineup(t, opponent)| <= LineupSize
  {
  }

  /**
   * Within a role group, every pick ranks above every row of the group left
   * out: a lower score, or the same score and a later row.
   */
  lemma TopWithinRole(t: seq<Row>, opponent: Option<string>, roles: set<string>, n: nat, x: Entry, y: Entry)
    requires x in TopN(Group(t, opponent, roles), n)
    requires y in Group(t, opponent, roles) && y !in TopN(Group(t, opponent, roles), n)
    ensures Score(y.row) <= Score(x.row)
    ensures Score(y.row) == Score(x.row) ==> x.index < y.index
  {
    var g := Group(t, opponent, roles);
    TopNPicksBest(g, n, x, y);
    PicksOfGroup(t, opponent, roles, n);
    GroupMembers(t, opponent, roles);
  }

  lemma NoDupAppend(a: seq<Entry>, b: seq<Entry>)
    requires NoDup(a) && NoDup(b)
    requires forall x :: x in a ==> x !in b
    ensures NoDup(a + b)
  {
    forall i, j | 0 <= i < j < |a + b| ensures (a + b)[i] != (a + b)[j] {
      if j < |a| {
      } else if i >= |a| {
        assert (a + b)[i] == b[i - |a|] && (a + b)[j] == b[j - |a|];
      } else {
        assert (a + b)[i] in a && (a + b)[j] in b;
      }
    }
  }

  // ---------------------------------------------------------------------
  // Output records

  lemma RecordsAppend(a: seq<Entry>, b: seq<Entry>, captain: string)
    ensures Records(a + b, captain) == Records(a, captain) + Records(b, captain)
  {
  }

  lemma {:induction false} CountRolesAppend(a: seq<Record>, b: seq<Record>, roles: set<string>)
    ensures CountRoles(a + b, roles) == CountRoles(a, roles) + CountRoles(b, roles)
  {
    if a == [] {
      assert a + b == b;
    } else {
      assert (a + b)[0] == a[0];
      assert (a + b)[1..] == a[1..] + b;
      CountRolesAppend(a[1..], b, roles);
    }
  }

  lemma {:induction false} CountRolesAll(out: seq<Record>, roles: set<string>)
    requires forall k :: 0 <= k < |out| ==> out[k].role in roles
    ensures CountRoles(out, roles) == |out|
  {
    if out != [] {
      CountRolesAll(out[1..], roles);
    }
  }

  lemma {:induction false} CountRolesNone(out: seq<Record>, roles: set<string>)
    requires forall k :: 0 <= k < |out| ==> out[k].role !in roles
    ensures CountRoles(out, roles) == 0
  {
    if out != [] {
      CountRolesNone(out[1..], roles);
    }
  }

  /** The records of one ranked role group are ranked. */
  lemma GroupRecordsRanked(s: seq<Entry>, roles: set<string>, captain: string)
    requires Sorted(s)
    requires forall e :: e in s ==> e.row.role in roles
    requires forall r1, r2 :: r1 in roles && r2 in roles ==> RoleRank(r1) == RoleRank(r2)
    ensures Ranked(Records(s, captain))
  {
  }

  /** Three ranked record groups of ranks 0, 1 and 2, joined in that order, are ranked. */
  lemma RankedJoin(a: seq<Record>, b: seq<Record>, c: seq<Record>)
    requires Ranked(a) && Ranked(b) && Ranked(c)
    requires forall k :: 0 <= k < |a| ==> RoleRank(a[k].role) == 0
    requires forall k :: 0 <= k < |b| ==> RoleRank(b[k].role) == 1
    requires forall k :: 0 <= k < |c| ==> RoleRank(c[k].role) == 2
    ensures Ranked(a + b + c)
  {
  }

  lemma CountRolesJoin(a: seq<Record>, b: seq<Record>, c: seq<Record>, roles: set<string>)
    ensures CountRoles(a + b + c, roles) == CountRoles(a, roles) + CountRoles(b, roles) + CountRoles(c, roles)
  {
    CountRolesAppend(a, b, roles);
    CountRolesAppend(a + b, c, roles);
  }

  /** The three disjoint role groups of a lineup, counted. */
  lemma CountParts(a: seq<Record>, b: seq<Record>, c: seq<Record>, ra: set<string>, rb: set<string>, rc: set<string>)
    requires forall k :: 0 <= k < |a| ==> a[k].role in ra && a[k].role !in rb && a[k].role !in rc
    requires forall k :: 0 <= k < |b| ==> b[k].role in rb && b[k].role !in ra && b[k].role !in rc
    requires forall k :: 0 <= k < |c| ==> c[k].role in rc && c[k].role !in ra && c[k].role !in rb
    ensures CountRoles(a + b + c, ra) == |a|
    ensures CountRoles(a + b + c, rb) == |b|
    ensures CountRoles(a + b + c, rc) == |c|
  {
    CountRolesJoin(a, b, c, ra);
    CountRolesJoin(a, b, c, rb);
    CountRolesJoin(a, b, c, rc);
    CountRolesAll(a, ra);
    CountRolesNone(b, ra);
    CountRolesNone(c, ra);
    CountRolesNone(a, rb);
    CountRolesAll(b, rb);
    CountRolesNone(c, rb);
    CountRolesNone(a, rc);
    CountRolesNone(b, rc);
    CountRolesAll(c, rc);
  }

  /**
   * The captain flag of every record of a non-empty lineup says whether its
   * name is that of the lineup's first highest-scoring row.
   */
  lemma RecordsCaptain(xi: seq<Entry>)
    requires |xi| > 0
    ensures CaptainedBy(Records(xi, xi[CaptainIndex(xi)].row.player), CaptainIndex(xi))
    ensures forall k :: 0 <= k < |xi| ==> !Records(xi, xi[CaptainIndex(xi)].row.player)[k].viceCaptain
  {
  }

  // ---------------------------------------------------------------------
  // The joined picks

  /**
   * Joined picks are rows of the table that survive the opponent filter and
   * have a selectable role, and no row of the table is chosen twice.
   */
  lemma JoinFromDistinctRows(t: seq<Row>, opponent: Option<string>, a: seq<Entry>, b: seq<Entry>, c: seq<Entry>)
    requires AllPicks(t, opponent, a, b, c)
    ensures var s := a + b + c;
      (forall e :: e in s ==>
         e.index < |t| && e.row == t[e.index] && !Excluded(e.row, opponent) && e.row.role in SelectableRoles)
      && forall i, j :: 0 <= i < j < |s| ==> s[i].index != s[j].index
  {
    NoDupAppend(a, b);
    NoDupAppend(a + b, c);
  }

  /** The records of one role's picks are ranked, within the quota, and all of that role's rank. */
  lemma PickRecords(t: seq<Row>, opponent: Option<string>, roles: set<string>, n: nat, rank: nat,
                    sel: seq<Entry>, captain: string)
    requires Picks(t, opponent, roles, n, sel)
    requires forall role :: role in roles ==> RoleRank(role) == rank
    ensures var out := Records(sel, captain);
      Ranked(out) && |out| <= n
      && forall k :: 0 <= k < |out| ==> out[k].role in roles && RoleRank(out[k].role) == rank
  {
    GroupRecordsRanked(sel, roles, captain);
  }

  /** The joined picks, as records, keep to the role quotas and hold no other role. */
  lemma JoinQuotas(t: seq<Row>, opponent: Option<string>, a: seq<Entry>, b: seq<Entry>, c: seq<Entry>, captain: string)
    requires AllPicks(t, opponent, a, b, c)
    ensures var out := Records(a + b + c, captain);
      CountRoles(out, BatRoles) <= BatQuota
      && CountRoles(out, AllRounderRoles) <= AllRounderQuota
      && CountRoles(out, BowlerRoles) <= BowlerQuota
      && forall k :: 0 <= k < |out| ==> out[k].role in SelectableRoles
  {
    var ra, rb, rc := Records(a, captain), Records(b, captain), Records(c, captain);
    RecordsAppend(a, b, captain);
    RecordsAppend(a + b, c, captain);
    PickRecords(t, opponent, BatRoles, BatQuota, 0, a, captain);
    PickRecords(t, opponent, AllRounderRoles, AllRounderQuota, 1, b, captain);
    PickRecords(t, opponent, BowlerRoles, BowlerQuota, 2, c, captain);
    CountParts(ra, rb, rc, BatRoles, AllRounderRoles, BowlerRoles);
    var out := ra + rb + rc;
    forall k | 0 <= k < |out| ensures out[k].role in SelectableRoles {
      if k < |ra| {
        assert out[k] == ra[k];
      } else if k < |ra| + |rb| {
        assert out[k] == rb[k - |ra|];
      } else {
        assert out[k] == rc[k - |ra| - |rb|];
      }
    }
  }

  /** The joined picks, as records, come by role group and then by descending score. */
  lemma JoinRanked(t: seq<Row>, opponent: Option<string>, a: seq<Entry>, b: seq<Entry>, c: seq<Entry>, captain: string)
    requires AllPicks(t, opponent, a, b, c)
    ensures Ranked(Records(a + b + c, captain))
  {
    RecordsAppend(a, b, captain);
    RecordsAppend(a + b, c, captain);
    PickRecords(t, opponent, BatRoles, BatQuota, 0, a, captain);
    PickRecords(t, opponent, AllRounderRoles, AllRounderQuota, 1, b, captain);
    PickRecords(t, opponent, BowlerRoles, BowlerQuota, 2, c, captain);
    RankedJoin(Records(a, captain), Records(b, captain), Records(c, captain));
  }

  /** Records of rows from outside the opponent's country name no country equal to the opponent's, case aside. */
  lemma RecordsAvoidOpponent(xi: seq<Entry>, captain: string, opponent: Option<string>)
    requires Truthy(opponent)
    requires forall e :: e in xi ==> !Excluded(e.row, opponent)
    ensures var out := Records(xi, captain);
      forall k :: 0 <= k < |out| ==> Lower(out[k].country) != Lower(opponent.value)
  {
  }

  /** Records of rows of the normalised table carry the columns of the raw table's rows. */
  lemma RecordsProvenance(table: seq<Row>, xi: seq<Entry>, captain: string)
    requires forall e :: e in xi ==> e.index < |table| && e.row == Normalise(table)[e.index]
    ensures var out := Records(xi, captain);
      |out| == |xi| && forall k :: 0 <= k < |out| ==> xi[k].index < |table| && SameRow(out[k], table[xi[k].index])
  {
  }

  // ---------------------------------------------------------------------
  // The returned lineup

  /** The lineup of a table is its three role groups' picks, joined. */
  lemma LineupPicks(t: seq<Row>, opponent: Option<string>) returns (a: seq<Entry>, b: seq<Entry>, c: seq<Entry>)
    ensures AllPicks(t, opponent, a, b, c) && Lineup(t, opponent) == a + b + c
  {
    a := TopN(Group(t, opponent, BatRoles), BatQuota);
    b := TopN(Group(t, opponent, AllRounderRoles), AllRounderQuota);
    c := TopN(Group(t, opponent, BowlerRoles), BowlerQuota);
    LineupShape(t, opponent);
    PicksOfGroup(t, opponent, BatRoles, BatQuota);
    PicksOfGroup(t, opponent, AllRounderRoles, AllRounderQuota);
    PicksOfGroup(t, opponent, BowlerRoles, BowlerQuota);
  }

  /**
   * Every row of the lineup is a row of the table that survives the opponent
   * filter and has a selectable role, and no row of the table is chosen twice.
   */
  lemma LineupFromDistinctRows(t: seq<Row>, opponent: Option<string>)
    ensures var xi := Lineup(t, opponent);
      (forall e :: e in xi ==>
         e.index < |t| && e.row == t[e.index] && !Excluded(e.row, opponent) && e.row.role in SelectableRoles)
      && forall i, j :: 0 <= i < j < |xi| ==> xi[i].index != xi[j].index
  {
    var a, b, c := LineupPicks(t, opponent);
    JoinFromDistinctRows(t, opponent, a, b, c);
  }

  /** A successful selection returns the records of the joined picks of the normalised table. */
  lemma Decompose(table: seq<Row>, pitchType: string, opponent: Option<string>, venue: Option<string>)
    returns (a: seq<Entry>, b: seq<Entry>, c: seq<Entry>, captain: string)
    requires BestXi(table, pitchType, opponent, venue).Ok?
    ensures AllPicks(Normalise(table), opponent, a, b, c)
    ensures Lineup(Normalise(table), opponent) == a + b + c
    ensures |a + b + c| > 0 && captain == (a + b + c)[CaptainIndex(a + b + c)].row.player
    ensures BestXi(table, pitchType, opponent, venue).value == Records(a + b + c, captain)
  {
    a, b, c := LineupPicks(Normalise(table), opponent);
    var xi := a + b + c;
    captain := xi[CaptainIndex(xi)].row.player;
  }

  /** At most eleven records come back, and fewer when a role group is short of its quota. */
  lemma LineupSizeBound(table: seq<Row>, pitchType: string, opponent: Option<string>, venue: Option<string>)
    requires BestXi(table, pitchType, opponent, venue).Ok?
    ensures var out := BestXi(table, pitchType, opponent, venue).value;
      var t := Normalise(table);
      0 < |out| <= LineupSize
      && |out| == Min(BatQuota, |Group(t, opponent, BatRoles)|)
                  + Min(AllRounderQuota, |Group(t, opponent, AllRounderRoles)|)
                  + Min(BowlerQuota, |Group(t, opponent, BowlerRoles)|)
  {
    LineupShape(Normalise(table), opponent);
  }

  /**
   * At most five batters, two all-rounders and four bowlers, and no record of
   * any other role (a wicket-keeper, say).
   */
  lemma RoleQuotas(table: seq<Row>, pitchType: string, opponent: Option<string>, venue: Option<string>)
    requires BestXi(table, pitchType, opponent, venue).Ok?
    ensures var out := BestXi(table, pitchType, opponent, venue).value;
      CountRoles(out, BatRoles) <= BatQuota
      && CountRoles(out, AllRounderRoles) <= AllRounderQuota
      && CountRoles(out, BowlerRoles) <= BowlerQuota
      && forall k :: 0 <= k < |out| ==> out[k].role in SelectableRoles
  {
    var a, b, c, captain := Decompose(table, pitchType, opponent, venue);
    JoinQuotas(Normalise(table), opponent, a, b, c, captain);
  }

  /** When the opponent is truthy, no record's country matches it, case aside. */
  lemma OpponentAbsent(table: seq<Row>, pitchType: string, opponent: Option<string>, venue: Option<string>)
    requires BestXi(table, pitchType, opponent, venue).Ok? && Truthy(opponent)
    ensures var out := BestXi(table, pitchType, opponent, venue).value;
      forall k :: 0 <= k < |out| ==> Lower(out[k].country) != Lower(opponent.value)
  {
    var a, b, c, captain := Decompose(table, pitchType, opponent, venue);
    JoinFromDistinctRows(Normalise(table), opponent, a, b, c);
    RecordsAvoidOpponent(a + b + c, captain, opponent);
  }

  /** Batters come first, then all-rounders, then bowlers; each group by descending score. */
  lemma LineupOrder(table: seq<Row>, pitchType: string, opponent: Option<string>, venue: Option<string>)
    requires BestXi(table, pitchType, opponent, venue).Ok?
    ensures Ranked(BestXi(table, pitchType, opponent, venue).value)
  {
    var a, b, c, captain := Decompose(table, pitchType, opponent, venue);
    JoinRanked(Normalise(table), opponent, a, b, c, captain);
  }

  /**
   * Each record is the projection of its own row of the input table, and no
   * row of the table is projected twice.
   */
  lemma RecordsFromDistinctRows(table: seq<Row>, pitchType: string, opponent: Option<string>, venue: Option<string>)
    requires BestXi(table, pitchType, opponent, venue).Ok?
    ensures var out := BestXi(table, pitchType, opponent, venue).value;
      var xi := Lineup(Normalise(table), opponent);
      |out| == |xi|
      && (forall k :: 0 <= k < |out| ==> xi[k].index < |table| && SameRow(out[k], table[xi[k].index]))
      && forall i, j :: 0 <= i < j < |xi| ==> xi[i].index != xi[j].index
  {
    var a, b, c, captain := Decompose(table, pitchType, opponent, venue);
    JoinFromDistinctRows(Normalise(table), opponent, a, b, c);
    RecordsProvenance(table, a + b + c, captain);
  }

  /**
   * The captain flag is set exactly on the records that share the name of the
   * first highest-scoring record, and that record is captain; no record is
   * vice-captain.
   */
  lemma CaptainFlags(table: seq<Row>, pitchType: string, opponent: Option<string>, venue: Option<string>)
    requires BestXi(table, pitchType, opponent, venue).Ok?
    ensures var out := BestXi(table, pitchType, opponent, venue).value;
      (exists j :: CaptainedBy(out, j))
      && forall k :: 0 <= k < |out| ==> !out[k].viceCaptain
  {
    var a, b, c, captain := Decompose(table, pitchType, opponent, venue);
    RecordsCaptain(a + b + c);
    assert CaptainedBy(BestXi(table, pitchType, opponent, venue).value, CaptainIndex(a + b + c));
  }

  /**
   * The captain lookup fails exactly when no row survives the opponent filter
   * with the role of a batter, an all-rounder or a bowler.
   */
  lemma FailsExactlyWhenNothingSelectable(table: seq<Row>, pitchType: string, opponent: Option<string>, venue: Option<string>)
    ensures BestXi(table, pitchType, opponent, venue) == Err(EmptyLineup) <==>
      forall i :: 0 <= i < |table| && !Excluded(table[i], opponent) ==> Lower(table[i].role) !in SelectableRoles
  {
    var t := Normalise(table);
    LineupShape(t, opponent);
    GroupMembers(t, opponent, BatRoles);
    GroupMembers(t, opponent, AllRounderRoles);
    GroupMembers(t, opponent, BowlerRoles);
    if Lineup(t, opponent) == [] {
      forall i | 0 <= i < |table| && !Excluded(table[i], opponent)
        ensures Lower(table[i].role) !in SelectableRoles
      {
        var e := Entry(i, t[i]);
        assert e !in Group(t, opponent, BatRoles) && e !in Group(t, opponent, AllRounderRoles)
          && e !in Group(t, opponent, BowlerRoles);
      }
    } else {
      var e := Lineup(t, opponent)[0];
      LineupFromDistinctRows(t, opponent);
      assert e in Lineup(t, opponent);
      assert !Excluded(table[e.index], opponent) && Lower(table[e.index].role) in SelectableRoles;
    }
  }

  /** The pitch type and the venue make no difference to the result. */
  lemma PitchAndVenueUnused(table: seq<Row>, opponent: Option<string>,
                            pitch1: string, venue1: Option<string>, pitch2: string, venue2: Option<string>)
    ensures BestXi(table, pitch1, opponent, venue1) == BestXi(table, pitch2, opponent, venue2)
  {
  }
}
