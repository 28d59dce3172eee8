/** Data-frame row selection: boolean masks, and `nlargest` on the score column. */
module Ranking {
  import opened Players

  /** Index labels strictly increase along the frame, as they do in every mask of the loaded table. */
  predicate Increasing(s: seq<Entry>) {
    forall a, b :: 0 <= a < b < |s| ==> s[a].index < s[b].index
  }

  /** No entry occurs twice. */
  predicate NoDup(s: seq<Entry>) {
    forall a, b :: 0 <= a < b < |s| ==> s[a] != s[b]
  }

  lemma IncreasingNoDup(s: seq<Entry>)
    requires Increasing(s)
    ensures NoDup(s)
  {
  }

  /** Applies a boolean mask: keeps, in order, the entries whose row satisfies `p`. */
  function Where(s: seq<Entry>, p: Row -> bool): (r: seq<Entry>)
    ensures |r| <= |s|
    ensures forall e :: e in r <==> e in s && p(e.row)
  {
    if s == [] then []
    else if p(s[0].row) then [s[0]] + Where(s[1..], p)
    else Where(s[1..], p)
  }

  /** A mask keeps the order of the index labels. */
  lemma {:induction false} WhereIncreasing(s: seq<Entry>, p: Row -> bool)
    requires Increasing(s)
    ensures Increasing(Where(s, p))
  {
    if s != [] {
      WhereIncreasing(s[1..], p);
      var rest := Where(s[1..], p);
      if p(s[0].row) {
        forall b | 0 <= b < |rest| ensures s[0].index < rest[b].index {
          assert rest[b] in s[1..];
        }
      }
    }
  }

  /** A mask that every row passes keeps the whole frame. */
  lemma {:induction false} WhereAll(s: seq<Entry>, p: Row -> bool)
    requires forall e :: e in s ==> p(e.row)
    ensures Where(s, p) == s
  {
    if s != [] {
      WhereAll(s[1..], p);
    }
  }

  /**
   * `a` ranks before `b` in `nlargest`: a higher score, or the same score
   * and an earlier occurrence (keep = "first").
   */
  predicate Before(a: Entry, b: Entry) {
    Score(a.row) > Score(b.row) || (Score(a.row) == Score(b.row) && a.index < b.index)
  }

  /**
   * `Before` is a strict total order on the entries of one frame: never
   * reflexive, transitive, and it decides every pair of distinct labels.
   */
  lemma BeforeTotalOrder(a: Entry, b: Entry, c: Entry)
    ensures !Before(a, a)
    ensures Before(a, b) && Before(b, c) ==> Before(a, c)
    ensures a.index != b.index ==> (Before(a, b) <==> !Before(b, a))
  {
  }

  /** No later entry ranks before an earlier one. */
  predicate Sorted(s: seq<Entry>) {
    forall a, b :: 0 <= a < b < |s| ==> !Before(s[b], s[a])
  }

  /** Inserts `e` into a ranked frame, after every entry that does not rank below it. */
  function Insert(e: Entry, s: seq<Entry>): (r: seq<Entry>)
    ensures multiset(r) == multiset(s) + multiset{e}
  {
    if s == [] || Before(e, s[0]) then
      [e] + s
    else
      assert s == [s[0]] + s[1..];
      [s[0]] + Insert(e, s[1..])
  }

  lemma InsertMembers(e: Entry, s: seq<Entry>, x: Entry)
    requires x in Insert(e, s)
    ensures x == e || x in s
  {
  }

  /** Inserting into a ranked frame leaves it ranked. */
  lemma {:induction false} InsertSorted(e: Entry, s: seq<Entry>)
    requires Sorted(s)
    ensures Sorted(Insert(e, s))
  {
    if s != [] && !Before(e, s[0]) {
      var rest := Insert(e, s[1..]);
      InsertSorted(e, s[1..]);
      forall b | 0 <= b < |rest| ensures !Before(rest[b], s[0]) {
        InsertMembers(e, s[1..], rest[b]);
      }
    }
  }

  /** Inserting a new entry into a frame without repeats gives a frame without repeats. */
  lemma {:induction false} InsertNoDup(e: Entry, s: seq<Entry>)
    requires NoDup(s) && e !in s
    ensures NoDup(Insert(e, s))
  {
    if s != [] && !Before(e, s[0]) {
      var rest := Insert(e, s[1..]);
      InsertNoDup(e, s[1..]);
      forall b | 0 <= b < |rest| ensures rest[b] != s[0] {
        InsertMembers(e, s[1..], rest[b]);
      }
    }
  }

  /** Insertion sort by rank; stable on entries of equal rank. */
  function Sort(s: seq<Entry>): (r: seq<Entry>)
    ensures multiset(r) == multiset(s)
  {
    if s == [] then []
    else
      assert s == [s[0]] + s[1..];
      Insert(s[0], Sort(s[1..]))
  }

  lemma {:induction false} SortSorted(s: seq<Entry>)
    ensures Sorted(Sort(s))
  {
    if s != [] {
      SortSorted(s[1..]);
      InsertSorted(s[0], Sort(s[1..]));
    }
  }

  lemma {:induction false} SortNoDup(s: seq<Entry>)
    requires NoDup(s)
    ensures NoDup(Sort(s))
  {
    if s != [] {
      var rest := Sort(s[1..]);
      SortNoDup(s[1..]);
      assert s[0] !in multiset(s[1..]);
      assert s[0] !in multiset(rest);
      InsertNoDup(s[0], rest);
    }
  }

  function Min(a: nat, b: nat): (m: nat) {
    if a < b then a else b
  }

  /** `nlargest(n, "score")`: the first `n` entries of the frame ranked by score. */
  function TopN(s: seq<Entry>, n: nat): (r: seq<Entry>)
    ensures |r| == Min(n, |s|)
    ensures multiset(r) <= multiset(s)
    ensures Sorted(r)
    ensures NoDup(s) ==> NoDup(r)
  {
    var sorted := Sort(s);
    assert |sorted| == |multiset(sorted)| == |s|;
    var m := Min(n, |s|);
    assert sorted == sorted[..m] + sorted[m..];
    SortSorted(s);
    if NoDup(s) then SortNoDup(s); sorted[..m] else sorted[..m]
  }

  /** Every entry of the frame is either picked by `TopN` or ranks below every pick. */
  lemma TopNPicksBest(s: seq<Entry>, n: nat, x: Entry, y: Entry)
    requires x in TopN(s, n) && y in s && y !in TopN(s, n)
    ensures Score(y.row) <= Score(x.row)
    ensures Score(y.row) == Score(x.row) ==> x.index <= y.index
  {
    var sorted := Sort(s);
    var m := Min(n, |s|);
    SortSorted(s);
    assert y in multiset(sorted);
    var b :| 0 <= b < |sorted| && sorted[b] == y;
    var a :| 0 <= a < m && sorted[a] == x;
    assert !Before(sorted[b], sorted[a]);
  }
}
