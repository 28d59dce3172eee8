# Best-XI selector, modelled in Dafny

This project models `auto_best_xi`, the one-day-international "best XI" selector in
`backend/selector.py`. It then proves what that pass guarantees about the lineup it returns.

The selector takes a table of player rows. Each row has a player name, a country, a role, runs,
wickets, a strike rate and an economy rate. The pass works in seven steps:

1. **Normalise.** Lower-case the role column.
2. **Filter.** If the opponent argument is truthy, drop every row whose country equals the
   opponent, ignoring case.
3. **Score.** Score every row as `runs * 0.02 + wickets * 25`.
4. **Pick per role.** Take the five best rows of role `batsman`/`batter`, the two best
   `allrounder` rows and the four best `bowler` rows. Each pick is `nlargest`: ties go to the
   earlier row.
5. **Assemble.** Join the three groups in that order and keep at most eleven rows.
6. **Captain.** The captain is the name of the highest-scoring row of that lineup.
7. **Output.** Emit one record per row. A record is captain when its name equals the captain's;
   vice-captain is always false.

The pitch type and the venue are accepted but never used. If the lineup is empty, the captain
lookup (`.iloc[0]`) raises.

## Files

- `players.dfy` (module `Players`):
  - the row datatype `Row`;
  - the data-frame entry `Entry`: an index label (the row's position in the loaded table) and a row;
  - ASCII lower-casing;
  - the score. It is ranked as the natural number `50 * score = runs + 1250 * wickets`, which
    orders rows exactly as the score formula does when computed over the reals.
- `ranking.dfy` (module `Ranking`):
  - boolean masks (`Where`);
  - `nlargest` as a stable insertion sort on "higher score, then earlier index label", cut to
    the first `n` entries (`TopN`);
  - the proofs that the sort is a ranked permutation without repeats.
- `selector.dfy` (module `Selector`):
  - the pipeline as functions: `Frame`, `Normalise`, `Pool`, `Group`, `Head`, `Lineup`,
    `CaptainIndex`, `ToRecord`, `Records`, `BestXi`;
  - the output loop as the method `Present`;
  - the whole pass as the method `AutoBestXi`. It returns `Err(EmptyLineup)` where the source
    raises.
- `properties.dfy` (module `SelectorProperties`): the guarantees about the returned lineup.

The selector has no wicket-keeper quota and no fallback that promotes a batter to keeper. It has
no captain allow-list, no vice-captain and no pitch-dependent bonus. It picks 5/2/4 by role and
never selects a wicket-keeper. It can return fewer than eleven records, and its captain is the
top scorer of the lineup.

## Model

| member | source | states |
|---|---|---|
| `Players.ScaledScore` | backend/selector.py:20-23 | the integer score is exactly 50 times `runs*0.02 + wickets*25` computed over the reals |
| `Players.ScoreOrderMatchesSource` | backend/selector.py:20-23 | comparing scaled scores gives the same order and the same ties as comparing the real-valued formula `runs*0.02 + wickets*25` |
| `Players.Lower` | backend/selector.py:14 | lower-casing keeps the length, leaves no upper-case letter, keeps every other character and maps each upper-case letter to its lower-case one |
| `Players.LowerIdempotent` | backend/selector.py:14 | lower-casing an already lower-cased string changes nothing |
| `Ranking.BeforeTotalOrder` | backend/selector.py:25-27 | the `nlargest` rank (higher score, then earlier row, as `keep="first"`) is irreflexive, transitive and decides every pair of distinct rows |
| `Ranking.Where` | backend/selector.py:16-17 | a boolean mask keeps exactly the entries whose row passes the test, and never lengthens the frame |
| `Ranking.WhereIncreasing` | backend/selector.py:17 | a mask keeps the index labels in their original order |
| `Ranking.WhereAll` | backend/selector.py:16-17 | a mask that every row passes gives back the whole frame |
| `Ranking.Insert` | backend/selector.py:25-27 | inserting adds exactly one entry and keeps every other entry (multiset) |
| `Ranking.InsertSorted` | backend/selector.py:25-27 | inserting into a ranked frame leaves it ranked by score, ties by earlier row |
| `Ranking.InsertNoDup` | backend/selector.py:25-27 | inserting a new entry into a frame without repeats creates no repeat |
| `Ranking.Sort` | backend/selector.py:25-27 | the ranking is a permutation of the frame |
| `Ranking.SortSorted` | backend/selector.py:25-27 | the ranking is ordered by descending score, ties by earlier row |
| `Ranking.SortNoDup` | backend/selector.py:25-27 | ranking a frame without repeats creates no repeat |
| `Ranking.TopN` | backend/selector.py:25-27 | `nlargest(n)` returns min(n, group size) entries of the group, ranked, without repeats |
| `Ranking.TopNPicksBest` | backend/selector.py:25-27 | every entry left out scores at most as much as every pick; on a tie, the pick is the earlier row (keep first) |
| `Selector.Head` | backend/selector.py:29 | `head(n)` is a prefix of at most `n` rows, and the whole frame when it has at most `n` rows |
| `Selector.Lineup` | backend/selector.py:25-29 | the joined role picks, cut by `head(11)`, hold at most eleven rows |
| `Selector.CaptainIndex` | backend/selector.py:31 | the captain's row has the highest score of the lineup, and every earlier row scores strictly less |
| `Selector.BestXi` | backend/selector.py:8-47 | the pass fails exactly when the lineup is empty, and otherwise returns one record per lineup row, at most eleven |
| `Selector.Present` | backend/selector.py:33-45 | the output loop appends exactly one projected record per lineup row, in lineup order |
| `Selector.AutoBestXi` | backend/selector.py:8-47 | the pass returns the modelled result, and fails exactly when the lineup is empty (`.iloc[0]` on an empty frame) |
| `SelectorProperties.FrameMembers` | backend/selector.py:9-14 | `Frame`: the loaded frame holds each table row under its own position, labels increasing |
| `SelectorProperties.NormaliseColumns` | backend/selector.py:14 | `Normalise` keeps every row and every column except the role, which it lower-cases |
| `SelectorProperties.NormaliseIdempotent` | backend/selector.py:14 | normalising a normalised table changes nothing |
| `SelectorProperties.RecordKeepsScore` | backend/selector.py:33-45 | `ToRecord`: a record carries its row's score, and is captain exactly when its name is the captain's |
| `SelectorProperties.PoolMembers` | backend/selector.py:16-17 | `Pool`, `Excluded`, `Truthy`: a row stays unless the opponent is present and non-empty and its lower-cased country equals the lower-cased opponent; labels stay increasing |
| `SelectorProperties.GroupMembers` | backend/selector.py:14-27 | `Group`: a role group holds exactly the table rows that survive the opponent filter and have one of its roles |
| `SelectorProperties.PicksOfGroup` | backend/selector.py:25-27 | each role's picks are min(quota, group size) distinct, ranked rows of that role's group |
| `SelectorProperties.NoFilterWhenFalsy` | backend/selector.py:16-17 | with no opponent or an empty one, the filter keeps every row |
| `SelectorProperties.LineupShape` | backend/selector.py:25-29 | the lineup is batters + all-rounders + bowlers, of sizes min(5,·), min(2,·), min(4,·), so `head(11)` cuts nothing |
| `SelectorProperties.TopWithinRole` | backend/selector.py:25-27 | in each role group, every pick outranks every unpicked row: a higher score, or the same score and an earlier row |
| `SelectorProperties.NoDupAppend` | backend/selector.py:29 | joining frames without repeats that share no entry creates no repeat |
| `SelectorProperties.RecordsAppend` | backend/selector.py:33-45 | `Records`: projecting joined frames gives the joined projections |
| `SelectorProperties.CountRolesAppend` | backend/selector.py:29 | a role count of joined records is the sum of the counts |
| `SelectorProperties.CountRolesAll` | backend/selector.py:25-27 | if every record has one of the roles, the count is the length |
| `SelectorProperties.CountRolesNone` | backend/selector.py:25-27 | if no record has one of the roles, the count is zero |
| `SelectorProperties.GroupRecordsRanked` | backend/selector.py:25-27 | one role group's records come by descending score |
| `SelectorProperties.RankedJoin` | backend/selector.py:29 | batters, then all-rounders, then bowlers, each ranked, join into a lineup ordered by role and then score |
| `SelectorProperties.CountParts` | backend/selector.py:29 | in three joined groups of disjoint roles, each role's count is its group's length |
| `SelectorProperties.CountRolesJoin` | backend/selector.py:29 | the role count of three joined record groups is the sum of their counts |
| `SelectorProperties.RecordsCaptain` | backend/selector.py:31-45 | in the records of a non-empty lineup, the first top scorer is captain, a record is captain exactly when it has that name, and no record is vice-captain |
| `SelectorProperties.JoinFromDistinctRows` | backend/selector.py:25-29 | the joined role picks are table rows that survive the filter with a selectable role; no table row occurs twice |
| `SelectorProperties.PickRecords` | backend/selector.py:25-27 | one role's records are ranked, at most the quota, and all of that role |
| `SelectorProperties.JoinQuotas` | backend/selector.py:25-29 | the joined picks' records have at most 5 batters, 2 all-rounders and 4 bowlers, and no other role |
| `SelectorProperties.JoinRanked` | backend/selector.py:25-29 | the joined picks' records are ordered by role group, then by descending score |
| `SelectorProperties.RecordsAvoidOpponent` | backend/selector.py:16-17 | records of rows the filter kept name no country equal to the truthy opponent, case aside |
| `SelectorProperties.RecordsProvenance` | backend/selector.py:14-45 | each record carries its normalised row's columns: the raw table row with its role lower-cased |
| `SelectorProperties.LineupPicks` | backend/selector.py:25-29 | the lineup is exactly the batter, all-rounder and bowler picks joined, each a valid pick of its group |
| `SelectorProperties.LineupFromDistinctRows` | backend/selector.py:16-29 | every lineup row is a table row that survives the filter and has a selectable role; no table row is chosen twice |
| `SelectorProperties.Decompose` | backend/selector.py:29-45 | a successful selection returns the records of the joined role picks, named after the first top scorer |
| `SelectorProperties.LineupSizeBound` | backend/selector.py:25-29 | between 1 and 11 records come back: min(5,·)+min(2,·)+min(4,·) of the role group sizes, so fewer than 11 when a group is short |
| `SelectorProperties.RoleQuotas` | backend/selector.py:25-27 | at most 5 batsman/batter, 2 allrounder and 4 bowler records, and no other role (no wicket-keeper) |
| `SelectorProperties.OpponentAbsent` | backend/selector.py:16-17 | with a truthy opponent, no record's lower-cased country equals the lower-cased opponent |
| `SelectorProperties.LineupOrder` | backend/selector.py:25-29 | all batters come before all all-rounders, who come before all bowlers; each group by descending score |
| `SelectorProperties.RecordsFromDistinctRows` | backend/selector.py:14-45 | each record carries exactly its own table row's columns (role lower-cased), and distinct records come from distinct rows |
| `SelectorProperties.CaptainFlags` | backend/selector.py:31-44 | captain is set exactly on the records named like a highest-scoring record (the first), so at least one is set; vice-captain is never set |
| `SelectorProperties.FailsExactlyWhenNothingSelectable` | backend/selector.py:25-31 | the selection fails exactly when no row survives the opponent filter with a batter, all-rounder or bowler role |
| `SelectorProperties.PitchAndVenueUnused` | backend/selector.py:8-47 | two calls that differ only in pitch type and venue give the same result |

## Left out

- Reading the tab-separated file, resolving the path, stripping the header and `astype(str)`
  (backend/selector.py:2-13): the model takes the parsed rows as input. A missing `runs` or
  `wickets` column, which `df.get(..., 0)` turns into zero, is part of the parsing as well.
- The `int(...)`/`float(...)` coercions of the output columns (backend/selector.py:39-42): runs
  and wickets are natural numbers; strike rate and economy are carried through as opaque reals.
- Floating-point scoring: the model ranks by the exact integer `runs + 1250 * wickets`. Scores that
  really differ differ by at least 0.02, far more than double-precision rounding at the
  magnitudes of cricket statistics, so they cannot swap.
- `Players.ScoreOrderMatchesSource`: two rows whose exact scores tie can get double-precision
  scores one unit in the last place apart. For example, 3 runs and 1 wicket gives 25.06, while
  1253 runs and no wicket gives 25.060000000000002. The source then picks, orders and chooses the
  captain by that difference; the model breaks the tie by row order.
- `Ranking.TopN`: `keep="first"` fixes which tied rows survive the cut, not their order. When a
  group has no more rows than its quota, `nlargest` ranks it with `sort_values`, whose default
  sort does not promise to be stable. The source then does not promise the output order of
  rows with equal scores; the model puts the earlier row first. `SelectorProperties.LineupOrder`,
  `SelectorProperties.RoleQuotas` and the score half of `SelectorProperties.TopWithinRole` do not
  depend on that order.
- `Players.Lower`: only ASCII letters are lower-cased. Python's `str.lower` maps the whole of
  Unicode.
- `Selector.CaptainIndex`: when several rows share the top score, the model takes the first of
  them in lineup order, which is what a stable descending sort yields. `sort_values` uses
  numpy's default sort, which does not promise stability, so pandas may put another tied row
  first. `SelectorProperties.CaptainFlags` states which name is chosen under this tie rule. The
  properties that only need "a highest-scoring row" hold for any tie order.
- A missing role cell: a role that is not a string becomes NaN under `str.lower` and matches no
  group. The model's roles are always strings, so such a row corresponds to a role outside every
  group.
- backend/main.py, the web route that forwards the pitch type and the opponent and drops the
  venue, and frontend/streamlit_app.py, the dashboard and its HTTP client: neither holds
  selection logic.
