/**
 * Weighted candidate ranking: each AI score entry is weighted by the first
 * criterion of the same name, the overall score is the weighted mean (0 when
 * nothing matches), and candidates are ordered by descending overall score,
 * equal scores keeping their order (a stable sort).
 */
module Ranking {
  import opened Wrappers
  import opened Types
  import opened Ratio

  /** The index of the first criterion named `name`. */
  function FirstNamed(criteria: seq<Criterion>, name: string): (r: Option<nat>)
    ensures r.None? <==> forall i :: 0 <= i < |criteria| ==> criteria[i].name != name
    ensures r.Some? ==> r.value < |criteria| && criteria[r.value].name == name
    ensures r.Some? ==> forall j :: 0 <= j < r.value ==> criteria[j].name != name
  {
    if criteria == [] then None
    else if criteria[0].name == name then Some(0)
    else
      var r := FirstNamed(criteria[1..], name);
      assert forall i :: 1 <= i < |criteria| ==> criteria[i] == criteria[1..][i - 1];
      if r.None? then None else Some(r.value + 1)
  }

  /** `criteria.find(c => c.name === name)`: the first criterion carrying exactly that name. */
  function FindCriterion(criteria: seq<Criterion>, name: string): (r: Option<Criterion>)
    ensures r.None? <==> forall i :: 0 <= i < |criteria| ==> criteria[i].name != name
    ensures r.Some? ==> exists i :: 0 <= i < |criteria| && criteria[i] == r.value && r.value.name == name
                                    && forall j :: 0 <= j < i ==> criteria[j].name != name
  {
    match FirstNamed(criteria, name)
    case None => None
    case Some(i) => Some(criteria[i])
  }

  /** A score entry counts when some criterion carries its name. */
  predicate Matches(criteria: seq<Criterion>, s: CriterionScore) {
    FirstNamed(criteria, s.criterionName).Some?
  }

  /** The weight one entry adds to the denominator. */
  function EntryWeight(criteria: seq<Criterion>, s: CriterionScore): int {
    match FirstNamed(criteria, s.criterionName)
    case None => 0
    case Some(i) => criteria[i].weight
  }

  /** The amount one entry adds to the numerator. */
  function EntryScore(criteria: seq<Criterion>, s: CriterionScore): int {
    match FirstNamed(criteria, s.criterionName)
    case None => 0
    case Some(i) => s.score * criteria[i].weight
  }

  /** Σ weight over the matched entries: positive exactly when some entry matches. */
  function TotalWeight(scores: seq<CriterionScore>, criteria: seq<Criterion>): (w: int)
    ensures w >= 0
    ensures w == 0 <==> forall k :: 0 <= k < |scores| ==> !Matches(criteria, scores[k])
  {
    if scores == [] then 0
    else
      var last := scores[|scores| - 1];
      var w := TotalWeight(scores[..|scores| - 1], criteria) + EntryWeight(criteria, last);
      assert forall k :: 0 <= k < |scores| - 1 ==> scores[..|scores| - 1][k] == scores[k];
      w
  }

  /** Σ score × weight over the matched entries. */
  function TotalScore(scores: seq<CriterionScore>, criteria: seq<Criterion>): int {
    if scores == [] then 0
    else TotalScore(scores[..|scores| - 1], criteria) + EntryScore(criteria, scores[|scores| - 1])
  }

  /**
   * The overall score of one candidate: the weighted mean of the matched
   * entries, and 0 when none matches. It is always a percentage.
   */
  function OverallScore(scores: seq<CriterionScore>, criteria: seq<Criterion>): (r: real)
    ensures 0.0 <= r <= 100.0
    ensures (forall k :: 0 <= k < |scores| ==> !Matches(criteria, scores[k])) ==> r == 0.0
  {
    var w := TotalWeight(scores, criteria);
    if w > 0 then
      TotalScoreBounds(scores, criteria, 0, 100);
      DivisionWithin(TotalScore(scores, criteria), w, 0, 100);
      TotalScore(scores, criteria) as real / w as real
    else 0.0
  }

  /** The aggregation loop of the analysis handler: one pass over the score entries. */
  method Aggregate(scores: seq<CriterionScore>, criteria: seq<Criterion>) returns (overall: real)
    ensures overall == OverallScore(scores, criteria)
  {
    var totalScore, totalWeight := 0, 0;
    for k := 0 to |scores|
      invariant totalScore == TotalScore(scores[..k], criteria)
      invariant totalWeight == TotalWeight(scores[..k], criteria)
    {
      TotalsStep(scores, criteria, k);
      var criterion := FindCriterion(criteria, scores[k].criterionName);
      FoundEntry(criteria, scores[k]);
      if criterion.Some? {
        totalScore := totalScore + scores[k].score * criterion.value.weight;
        totalWeight := totalWeight + criterion.value.weight;
      }
    }
    assert scores[..|scores|] == scores;
    overall := if totalWeight > 0 then totalScore as real / totalWeight as real else 0.0;
    OverallOfTotals(scores, criteria);
  }

  lemma TotalsStep(scores: seq<CriterionScore>, criteria: seq<Criterion>, k: nat)
    requires k < |scores|
    ensures TotalScore(scores[..k + 1], criteria) == TotalScore(scores[..k], criteria) + EntryScore(criteria, scores[k])
    ensures TotalWeight(scores[..k + 1], criteria) == TotalWeight(scores[..k], criteria) + EntryWeight(criteria, scores[k])
  {
    assert scores[..k + 1][..k] == scores[..k];
  }

  lemma FoundEntry(criteria: seq<Criterion>, s: CriterionScore)
    ensures var c := FindCriterion(criteria, s.criterionName);
            && EntryScore(criteria, s) == (if c.Some? then s.score * c.value.weight else 0)
            && EntryWeight(criteria, s) == (if c.Some? then c.value.weight else 0)
  {
  }

  lemma OverallOfTotals(scores: seq<CriterionScore>, criteria: seq<Criterion>)
    ensures var w := TotalWeight(scores, criteria);
            OverallScore(scores, criteria) == if w > 0 then TotalScore(scores, criteria) as real / w as real else 0.0
  {
  }

  /** Every matched entry's score lies in [lo, hi]. */
  predicate MatchedWithin(scores: seq<CriterionScore>, criteria: seq<Criterion>, lo: int, hi: int) {
    forall k :: 0 <= k < |scores| && Matches(criteria, scores[k]) ==> lo <= scores[k].score <= hi
  }

  lemma {:induction false} TotalScoreBounds(scores: seq<CriterionScore>, criteria: seq<Criterion>, lo: int, hi: int)
    requires MatchedWithin(scores, criteria, lo, hi)
    ensures lo * TotalWeight(scores, criteria) <= TotalScore(scores, criteria) <= hi * TotalWeight(scores, criteria)
  {
    if scores != [] {
      var init, last := scores[..|scores| - 1], scores[|scores| - 1];
      assert MatchedWithin(init, criteria, lo, hi) by {
        forall k | 0 <= k < |init| && Matches(criteria, init[k]) ensures lo <= init[k].score <= hi {
          assert init[k] == scores[k];
        }
      }
      TotalScoreBounds(init, criteria, lo, hi);
      EntryBounds(criteria, last, lo, hi);
      AddBounds(lo, hi, TotalWeight(init, criteria), TotalScore(init, criteria),
                EntryWeight(criteria, last), EntryScore(criteria, last),
                TotalWeight(scores, criteria), TotalScore(scores, criteria));
    }
  }

  lemma EntryBounds(criteria: seq<Criterion>, s: CriterionScore, lo: int, hi: int)
    requires Matches(criteria, s) ==> lo <= s.score <= hi
    ensures lo * EntryWeight(criteria, s) <= EntryScore(criteria, s) <= hi * EntryWeight(criteria, s)
  {
    if Matches(criteria, s) {
      var w := EntryWeight(criteria, s);
      assert EntryScore(criteria, s) == s.score * w;
      MulMonotone(lo, s.score, w);
      MulMonotone(s.score, hi, w);
    }
  }

  lemma AddBounds(lo: int, hi: int, w: int, t: int, w': int, t': int, sw: int, st: int)
    requires lo * w <= t <= hi * w && lo * w' <= t' <= hi * w'
    requires sw == w + w' && st == t + t'
    ensures lo * sw <= st <= hi * sw
  {
    Distribute(lo, w, w');
    Distribute(hi, w, w');
  }

  lemma Distribute(a: int, b: int, c: int)
    ensures a * (b + c) == a * b + a * c
  {
  }

  lemma MulMonotone(a: int, b: int, w: int)
    requires a <= b && w >= 0
    ensures a * w <= b * w
  {
  }

  /**
   * Boundedness of the weighted mean: when some entry matches, the overall
   * score lies between any lower and upper bound of the matched scores.
   */
  lemma OverallWithinMatchedScores(scores: seq<CriterionScore>, criteria: seq<Criterion>, lo: int, hi: int)
    requires MatchedWithin(scores, criteria, lo, hi)
    requires exists k :: 0 <= k < |scores| && Matches(criteria, scores[k])
    ensures lo as real <= OverallScore(scores, criteria) <= hi as real
  {
    TotalScoreBounds(scores, criteria, lo, hi);
    DivisionWithin(TotalScore(scores, criteria), TotalWeight(scores, criteria), lo, hi);
  }

  lemma {:induction false} TotalsAppend(a: seq<CriterionScore>, b: seq<CriterionScore>, criteria: seq<Criterion>)
    ensures TotalWeight(a + b, criteria) == TotalWeight(a, criteria) + TotalWeight(b, criteria)
    ensures TotalScore(a + b, criteria) == TotalScore(a, criteria) + TotalScore(b, criteria)
    decreases |b|
  {
    if b == [] {
      assert a + b == a;
    } else {
      var init := b[..|b| - 1];
      TotalsAppend(a, init, criteria);
      assert (a + b)[..|a + b| - 1] == a + init;
      assert (a + b)[|a + b| - 1] == b[|b| - 1];
    }
  }

  /** An entry that names no criterion changes neither sum, wherever it stands. */
  lemma UnmatchedEntryIgnored(scores: seq<CriterionScore>, criteria: seq<Criterion>, k: nat)
    requires k < |scores| && !Matches(criteria, scores[k])
    ensures OverallScore(scores, criteria) == OverallScore(scores[..k] + scores[k + 1..], criteria)
  {
    var a, x, b := scores[..k], [scores[k]], scores[k + 1..];
    assert scores == a + x + b;
    assert x[..0] == [];
    assert TotalWeight(x, criteria) == 0 && TotalScore(x, criteria) == 0;
    TotalsAppend(a + x, b, criteria);
    TotalsAppend(a, x, criteria);
    TotalsAppend(a, b, criteria);
    assert TotalWeight(scores, criteria) == TotalWeight(a + b, criteria);
    assert TotalScore(scores, criteria) == TotalScore(a + b, criteria);
  }

  // ---------------------------------------------------------------------
  // Ordering: `candidates.sort((a, b) => b.overallScore - a.overallScore)`,
  // a stable sort in descending order of overall score.

  /** Inserts `x`, which came before every element of `t`, ahead of the first element not above it. */
  function Insert(x: Candidate, t: seq<Candidate>): seq<Candidate> {
    if t == [] || t[0].overallScore <= x.overallScore then [x] + t
    else [t[0]] + Insert(x, t[1..])
  }

  lemma {:induction false} InsertPermutes(x: Candidate, t: seq<Candidate>)
    ensures multiset(Insert(x, t)) == multiset(t) + multiset{x}
  {
    if t != [] && t[0].overallScore > x.overallScore {
      InsertPermutes(x, t[1..]);
      assert t == [t[0]] + t[1..];
    }
  }

  /** The stable descending order of the candidates, as a function of the input order. */
  function SortByScore(s: seq<Candidate>): seq<Candidate> {
    if s == [] then [] else Insert(s[0], SortByScore(s[1..]))
  }

  predicate Descending(s: seq<Candidate>) {
    forall i, j :: 0 <= i < j < |s| ==> s[i].overallScore >= s[j].overallScore
  }

  /** The candidates with overall score `v`, in their order. */
  function WithScore(s: seq<Candidate>, v: real): seq<Candidate> {
    if s == [] then []
    else (if s[0].overallScore == v then [s[0]] else []) + WithScore(s[1..], v)
  }

  lemma {:induction false} InsertDescending(x: Candidate, t: seq<Candidate>)
    requires Descending(t)
    ensures Descending(Insert(x, t))
  {
    if t != [] && t[0].overallScore > x.overallScore {
      InsertDescending(x, t[1..]);
      InsertPermutes(x, t[1..]);
      var r := Insert(x, t[1..]);
      assert forall j :: 0 <= j < |r| ==> t[0].overallScore >= r[j].overallScore by {
        forall j | 0 <= j < |r| ensures t[0].overallScore >= r[j].overallScore {
          assert r[j] in multiset(r);
          assert r[j] == x || r[j] in multiset(t[1..]);
          if r[j] != x {
            var m :| 0 <= m < |t[1..]| && t[1..][m] == r[j];
            assert t[m + 1] == r[j];
          }
        }
      }
    }
  }

  lemma {:induction false} InsertWithScore(x: Candidate, t: seq<Candidate>, v: real)
    requires Descending(t)
    ensures WithScore(Insert(x, t), v) == (if x.overallScore == v then [x] else []) + WithScore(t, v)
  {
    var own := if x.overallScore == v then [x] else [];
    if t == [] || t[0].overallScore <= x.overallScore {
      assert ([x] + t)[0] == x && ([x] + t)[1..] == t;
    } else {
      var u := t[1..];
      assert Descending(u) by {
        forall i, j | 0 <= i < j < |u| ensures u[i].overallScore >= u[j].overallScore {
          assert u[i] == t[i + 1] && u[j] == t[j + 1];
        }
      }
      InsertWithScore(x, u, v);
      var head := if t[0].overallScore == v then [t[0]] else [];
      var r := Insert(x, u);
      assert ([t[0]] + r)[0] == t[0] && ([t[0]] + r)[1..] == r;
      assert WithScore(Insert(x, t), v) == head + (own + WithScore(u, v));
      assert WithScore(t, v) == head + WithScore(u, v);
      assert head == [] || own == [];
    }
  }

  /**
   * `SortByScore` is a stable sort: descending, a permutation of its input,
   * and for each score the candidates with that score keep their order.
   */
  lemma {:induction false} SortByScoreIsStableSort(s: seq<Candidate>)
    ensures Descending(SortByScore(s))
    ensures multiset(SortByScore(s)) == multiset(s)
    ensures forall v :: WithScore(SortByScore(s), v) == WithScore(s, v)
  {
    if s != [] {
      SortByScoreIsStableSort(s[1..]);
      InsertDescending(s[0], SortByScore(s[1..]));
      InsertPermutes(s[0], SortByScore(s[1..]));
      assert s == [s[0]] + s[1..];
      forall v ensures WithScore(SortByScore(s), v) == WithScore(s, v) {
        InsertWithScore(s[0], SortByScore(s[1..]), v);
      }
    }
  }

  /** `Insert` places `x` after the first `k` elements of `t` when exactly those are above it. */
  lemma {:induction false} InsertAt(x: Candidate, t: seq<Candidate>, k: nat)
    requires k <= |t|
    requires forall m :: 0 <= m < k ==> t[m].overallScore > x.overallScore
    requires k == |t| || t[k].overallScore <= x.overallScore
    ensures Insert(x, t) == t[..k] + [x] + t[k..]
  {
    if k > 0 {
      var u := t[1..];
      assert forall m :: 0 <= m < k - 1 ==> u[m].overallScore > x.overallScore by {
        forall m | 0 <= m < k - 1 ensures u[m].overallScore > x.overallScore {
          assert u[m] == t[m + 1];
        }
      }
      assert k - 1 < |u| ==> u[k - 1] == t[k];
      InsertAt(x, u, k - 1);
      assert t[0].overallScore > x.overallScore;
      assert Insert(x, t) == [t[0]] + Insert(x, u);
      assert u[..k - 1] == t[1..k];
      assert u[k - 1..] == t[k..];
      assert t[..k] == [t[0]] + t[1..k];
    }
  }

  /**
   * One shift of the insertion loop, on the array's contents `b`: copying
   * `b[j]` one place left extends the moved run `t[..j - i - 1]` by one.
   */
  lemma ShiftOne(b: seq<Candidate>, t: seq<Candidate>, i: nat, j: nat)
    requires i + 1 <= j < |b| && |t| == |b| - i - 1
    requires b[i..j - 1] == t[..j - i - 1]
    requires b[j..] == t[j - i - 1..]
    ensures t[j - i - 1] == b[j]
    ensures b[j - 1 := b[j]][..i] == b[..i]
    ensures b[j - 1 := b[j]][i..j] == t[..j - i]
    ensures b[j - 1 := b[j]][j..] == t[j - i - 1..]
  {
    var c := b[j - 1 := b[j]];
    assert b[j..][0] == t[j - i - 1..][0];
    forall m | 0 <= m < j - i ensures c[i..j][m] == t[..j - i][m] {
      if m < j - i - 1 {
        assert c[i + m] == b[i + m] == b[i..j - 1][m];
      }
    }
  }

  /**
   * Where the insertion loop stops: dropping `x` into the gap left behind the
   * moved run makes the suffix from `i` on `Insert(x, t)`.
   */
  lemma Placed(b: seq<Candidate>, t: seq<Candidate>, x: Candidate, i: nat, j: nat)
    requires i + 1 <= j <= |b| && |t| == |b| - i - 1
    requires b[i..j - 1] == t[..j - i - 1]
    requires b[j..] == t[j - i - 1..]
    requires forall m :: 0 <= m < j - i - 1 ==> t[m].overallScore > x.overallScore
    requires j == |b| || b[j].overallScore <= x.overallScore
    ensures b[j - 1 := x][..i] == b[..i]
    ensures b[j - 1 := x][i..] == Insert(x, t)
  {
    var k := j - i - 1;
    assert k < |t| ==> t[k] == b[j] by {
      if k < |t| { assert b[j..][0] == t[k..][0]; }
    }
    InsertAt(x, t, k);
    var c := b[j - 1 := x];
    assert c[i..] == c[i..j - 1] + [x] + c[j..];
    assert c[i..j - 1] == b[i..j - 1];
    assert c[j..] == b[j..];
  }

  /** One step of the insertion sort: moves `a[i]` into the sorted run `a[i + 1..]`. */
  method InsertInto(a: array<Candidate>, i: nat)
    requires i < a.Length
    modifies a
    ensures a[..i] == old(a[..i])
    ensures a[i..] == Insert(old(a[i]), old(a[i + 1..]))
  {
    var x := a[i];
    ghost var t := old(a[i + 1..]);
    var j := i + 1;
    while j < a.Length && a[j].overallScore > x.overallScore
      invariant i + 1 <= j <= a.Length
      invariant a[..i] == old(a[..i])
      invariant a[i..j - 1] == t[..j - i - 1]
      invariant a[j..] == t[j - i - 1..]
      invariant forall m :: 0 <= m < j - i - 1 ==> t[m].overallScore > x.overallScore
    {
      ghost var b := a[..];
      ShiftOne(b, t, i, j);
      a[j - 1] := a[j];
      assert a[..] == b[j - 1 := b[j]];
      j := j + 1;
    }
    ghost var b := a[..];
    a[j - 1] := x;
    assert a[..] == b[j - 1 := x];
    Placed(b, t, x, i, j);
  }


  /** The in-place sort of the candidate array: an insertion sort, stable like the browser's. */
  method SortCandidates(a: array<Candidate>)
    modifies a
    ensures a[..] == SortByScore(old(a[..]))
  {
    var i := a.Length;
    while i > 0
      invariant 0 <= i <= a.Length
      invariant a[..i] == old(a[..i])
      invariant a[i..] == SortByScore(old(a[..])[i..])
    {
      i := i - 1;
      ghost var before := a[..];
      InsertInto(a, i);
      assert before[i] == old(a[..])[i];
      assert old(a[..])[i..] == [old(a[..])[i]] + old(a[..])[i + 1..];
      assert a[..i] == before[..i];
    }
    assert a[0..] == a[..];
    assert old(a[..])[0..] == old(a[..]);
  }
}
