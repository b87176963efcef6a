/**
 * The decision table (src/App.jsx fetchOptions, updateRating, calculateTotal):
 * for each alternative a map from criterion id to its star score.
 */
module Ratings {
  import opened Criteria

  type Scores = map<string, int>

  const MaxStars := 5

  /** The ids of a selection. */
  function IdSet(s: seq<Criterion>): set<string>
  {
    set i | 0 <= i < |s| :: s[i].id
  }

  /** Every score is between 0 (not rated yet) and 5 stars. */
  predicate InStarRange(m: Scores)
  {
    forall k :: k in m ==> 0 <= m[k] <= MaxStars
  }

  /** The initial scores for a selection: each selected id mapped to 0, nothing else. */
  predicate ZeroedFor(m: Scores, s: seq<Criterion>)
  {
    m.Keys == IdSet(s) && forall k :: k in m ==> m[k] == 0
  }

  /** `ratings[idx][id] || 0`: the score a cell shows. */
  function Cell(m: Scores, k: string): (r: int)
    ensures k !in m ==> r == 0
    ensures InStarRange(m) ==> 0 <= r <= MaxStars
  {
    if k in m then m[k] else 0
  }

  /** `Object.values(m).reduce((sum, val) => sum + val, 0)`: an empty table totals 0. */
  ghost function Total(m: Scores): (r: int)
    ensures m == map[] ==> r == 0
    decreases |m|
  {
    if m == map[] then 0
    else
      var k :| k in m;
      assert |m - {k}| < |m| by { assert (m - {k}).Keys < m.Keys; }
      m[k] + Total(m - {k})
  }

  /** The initial scores `fetchOptions` builds with its `forEach` loop. */
  method InitialRatings(s: seq<Criterion>) returns (m: Scores)
    ensures ZeroedFor(m, s)
  {
    m := map[];
    var i := 0;
    while i < |s|
      invariant 0 <= i <= |s|
      invariant ZeroedFor(m, s[..i])
    {
      assert IdSet(s[..i + 1]) == IdSet(s[..i]) + {s[i].id} by {
        assert forall j :: 0 <= j < i ==> s[..i + 1][j] == s[..i][j];
      }
      m := m[s[i].id := 0];
      i := i + 1;
    }
    assert s[..i] == s;
  }

  /** The sum does not depend on which key is taken first. */
  lemma {:induction false} TotalRemove(m: Scores, k: string)
    requires k in m
    ensures Total(m) == m[k] + Total(m - {k})
    decreases |m|
  {
    var j :| j in m && Total(m) == m[j] + Total(m - {j});
    if j != k {
      assert (m - {j}).Keys < m.Keys && (m - {k}).Keys < m.Keys;
      TotalRemove(m - {j}, k);
      TotalRemove(m - {k}, j);
      assert m - {j} - {k} == m - {k} - {j};
    }
  }

  /** Right after initialisation every total is 0. */
  lemma {:induction false} TotalOfZeros(m: Scores)
    requires forall k :: k in m ==> m[k] == 0
    ensures Total(m) == 0
    decreases |m|
  {
    if m != map[] {
      var k :| k in m;
      TotalRemove(m, k);
      assert (m - {k}).Keys < m.Keys;
      TotalOfZeros(m - {k});
    }
  }

  /** With scores of 0 to 5 stars the total is at most 5 per scored criterion. */
  lemma {:induction false} TotalBounded(m: Scores)
    requires InStarRange(m)
    ensures 0 <= Total(m) <= MaxStars * |m|
    decreases |m|
  {
    if m != map[] {
      var k :| k in m;
      TotalRemove(m, k);
      assert (m - {k}).Keys == m.Keys - {k};
      assert |m - {k}| == |m| - 1;
      TotalBounded(m - {k});
    }
  }

  /** Setting one cell changes the total by the new score minus the shown one. */
  lemma TotalAfterRating(m: Scores, k: string, v: int)
    ensures Total(m[k := v]) == Total(m) - Cell(m, k) + v
  {
    var m' := m[k := v];
    TotalRemove(m', k);
    assert m' - {k} == m - {k};
    if k in m {
      TotalRemove(m, k);
    } else {
      assert m - {k} == m;
    }
  }

  /** A selection has at most as many distinct ids as entries. */
  lemma {:induction false} IdSetSize(s: seq<Criterion>)
    ensures |IdSet(s)| <= |s|
  {
    if s != [] {
      var n := |s| - 1;
      assert IdSet(s) == IdSet(s[..n]) + {s[n].id} by {
        assert forall j :: 0 <= j < n ==> s[..n][j] == s[j];
      }
      IdSetSize(s[..n]);
    }
  }

  lemma {:induction false} SubsetSize(a: set<string>, b: set<string>)
    requires a <= b
    ensures |a| <= |b|
    decreases |b|
  {
    if b != {} {
      var x :| x in b;
      SubsetSize(a - {x}, b - {x});
    }
  }

  /**
   * The table shows "(max N points)" with N = 5 times the number of selected
   * criteria; a total over scores for those criteria never exceeds it.
   */
  lemma TotalAtMostShownMaximum(m: Scores, s: seq<Criterion>)
    requires InStarRange(m) && m.Keys <= IdSet(s)
    ensures Total(m) <= MaxStars * |s|
  {
    TotalBounded(m);
    SubsetSize(m.Keys, IdSet(s));
    IdSetSize(s);
  }
}
