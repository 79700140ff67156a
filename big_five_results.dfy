/**
 * The Big Five results screen: each dimension's score, its maximum, the
 * percentage bar and a low / moderate / high interpretation.
 */
module BigFiveResults {
  import opened Wrappers
  import opened Dict
  import opened Types

  datatype Band = Low | Moderate | High

  function Rank(b: Band): nat {
    match b
    case Low => 0
    case Moderate => 1
    case High => 2
  }

  /** `getInterpretation`: above 80 is high, below 40 is low, the rest moderate. */
  function Interpretation(score: int): (b: Band)
    ensures b == High <==> score > 80
    ensures b == Low <==> score < 40
    ensures b == Moderate <==> 40 <= score <= 80
  {
    if score > 80 then High
    else if score < 40 then Low
    else Moderate
  }

  /** A higher score never gets a lower band. */
  lemma InterpretationMonotone(a: int, b: int)
    requires a <= b
    ensures Rank(Interpretation(a)) <= Rank(Interpretation(b))
  {
  }

  /** `perguntas.filter(p => p.dimensao === dim).length`. */
  function CountTagged(questions: seq<BigFiveQuestion>, dim: string): (n: nat)
    ensures n <= |questions|
    ensures n == 0 <==> forall q :: q in questions ==> q.dimensao != dim
  {
    if questions == [] then 0
    else
      var rest := CountTagged(questions[..|questions| - 1], dim);
      assert forall q :: q in questions <==> q in questions[..|questions| - 1] || q == questions[|questions| - 1];
      rest + if questions[|questions| - 1].dimensao == dim then 1 else 0
  }

  /** `maxScorePerDimension` as written: five points per Openness question, for every dimension. */
  function MaxScoreAsWritten(questions: seq<BigFiveQuestion>): (m: nat)
    ensures m % 5 == 0 && m <= 5 * |questions|
    ensures m == 0 <==> forall q :: q in questions ==> q.dimensao != "O"
  {
    5 * CountTagged(questions, "O")
  }

  /** The maximum the dimension can reach: five points per question of that dimension. */
  function MaxScoreFor(questions: seq<BigFiveQuestion>, dim: string): (m: nat)
    ensures m % 5 == 0 && m <= 5 * |questions|
    ensures m == 0 <==> forall q :: q in questions ==> q.dimensao != dim
  {
    5 * CountTagged(questions, dim)
  }

  /** The two maxima agree on a dimension exactly when it has as many questions as Openness. */
  lemma MaxScoresAgree(questions: seq<BigFiveQuestion>, dim: string)
    ensures MaxScoreAsWritten(questions) == MaxScoreFor(questions, dim)
            <==> CountTagged(questions, dim) == CountTagged(questions, "O")
  {
  }

  /** `results[dim.id] || 0`: a dimension missing from the results shows 0. */
  function DisplayedScore(results: Dict<int>, dim: string): (score: int)
    ensures !HasKey(results, dim) ==> score == 0
    ensures HasKey(results, dim) ==> Get(results, dim) == Some(score)
  {
    GetOr(results, dim, 0)
  }

  /** `(score / max) * 100`, undefined when the maximum is 0. */
  function Percentage(score: int, max: nat): (p: Option<real>)
    ensures p.None? <==> max == 0
    ensures p.Some? ==> p.value * max as real == score as real * 100.0
  {
    if max == 0 then None else Some(score as real * 100.0 / max as real)
  }

  /** A score between 0 and its maximum fills between 0 and 100 percent of the bar. */
  lemma PercentageBounds(score: int, max: nat)
    requires 0 <= score <= max && max > 0
    ensures 0.0 <= Percentage(score, max).value <= 100.0
  {
    var p := Percentage(score, max).value;
    assert p * max as real <= 100.0 * max as real;
  }

  /** One dimension's card: the score, the maximum shown next to it, the bar and the band. */
  datatype Row = Row(score: int, max: nat, percentage: Option<real>, band: Band)

  /** The card as the screen computes it, with the Openness-based maximum. */
  function RowAsWritten(results: Dict<int>, questions: seq<BigFiveQuestion>, dim: string): (r: Row)
    ensures r.max == MaxScoreAsWritten(questions)
    ensures r.score == DisplayedScore(results, dim) && r.band == Interpretation(r.score)
    ensures r.percentage == Percentage(r.score, r.max)
  {
    var score := DisplayedScore(results, dim);
    Row(score, MaxScoreAsWritten(questions), Percentage(score, MaxScoreAsWritten(questions)), Interpretation(score))
  }

  /** The card with the dimension's own maximum. */
  function RowFor(results: Dict<int>, questions: seq<BigFiveQuestion>, dim: string): (r: Row)
    ensures r.max == MaxScoreFor(questions, dim)
    ensures r.score == DisplayedScore(results, dim) && r.band == Interpretation(r.score)
    ensures r.percentage == Percentage(r.score, r.max)
    ensures r.percentage.None? <==> CountTagged(questions, dim) == 0
  {
    var score := DisplayedScore(results, dim);
    Row(score, MaxScoreFor(questions, dim), Percentage(score, MaxScoreFor(questions, dim)), Interpretation(score))
  }

  /** The screen's cards as written, one per declared dimension id, in order. */
  function RowsAsWritten(results: Dict<int>, questions: seq<BigFiveQuestion>, dims: seq<string>): (rows: seq<Row>)
    ensures |rows| == |dims|
    ensures forall i :: 0 <= i < |dims| ==> rows[i] == RowAsWritten(results, questions, dims[i])
  {
    seq(|dims|, i requires 0 <= i < |dims| => RowAsWritten(results, questions, dims[i]))
  }

  /** The cards of the corrected screen, each with its dimension's own maximum, one per declared dimension id, in order. */
  function Rows(results: Dict<int>, questions: seq<BigFiveQuestion>, dims: seq<string>): (rows: seq<Row>)
    ensures |rows| == |dims|
    ensures forall i :: 0 <= i < |dims| ==> rows[i] == RowFor(results, questions, dims[i])
  {
    seq(|dims|, i requires 0 <= i < |dims| => RowFor(results, questions, dims[i]))
  }

  /**
   * The data of the component's test: Openness has two questions and
   * Conscientiousness one, with scores 8 and 5. The Openness card reads
   * "8 of 10" either way; the Conscientiousness card reads "5 of 10" as
   * written, where "5 of 5" is expected.
   */
  lemma ComponentTestExample(results: Dict<int>, questions: seq<BigFiveQuestion>)
    requires results == [Entry("O", 8), Entry("C", 5)]
    requires questions == [BigFiveQuestion("1", "O", "Question O1"), BigFiveQuestion("2", "O", "Question O2"),
                           BigFiveQuestion("3", "C", "Question C1")]
    ensures RowAsWritten(results, questions, "O").score == 8 && RowAsWritten(results, questions, "O").max == 10
    ensures RowAsWritten(results, questions, "C").score == 5 && RowAsWritten(results, questions, "C").max == 10
    ensures RowFor(results, questions, "O").max == 10
    ensures RowFor(results, questions, "C").score == 5 && RowFor(results, questions, "C").max == 5
  {
    assert questions[..2][..1][..0] == [];
    assert questions[..2][..1] == questions[..1];
    assert questions[..|questions| - 1] == questions[..2];
    assert CountTagged(questions[..1], "O") == 1 && CountTagged(questions[..1], "C") == 0;
    assert CountTagged(questions[..2], "O") == 2 && CountTagged(questions[..2], "C") == 0;
    assert CountTagged(questions, "O") == 2;
    assert CountTagged(questions, "C") == 1;
    assert Get(results, "O") == Some(8);
    assert results[1..] == [Entry("C", 5)];
    assert Position(results, "C") == Some(1);
  }

  /**
   * As written, a dimension with more questions than Openness can overflow
   * the bar: one Openness question and two Conscientiousness questions both
   * answered 5 show Conscientiousness at 200 percent.
   */
  lemma OpennessMaxOverflows(results: Dict<int>, questions: seq<BigFiveQuestion>)
    requires results == [Entry("O", 5), Entry("C", 10)]
    requires questions == [BigFiveQuestion("1", "O", "q1"), BigFiveQuestion("2", "C", "q2"), BigFiveQuestion("3", "C", "q3")]
    ensures RowAsWritten(results, questions, "C").percentage == Some(200.0)
    ensures RowFor(results, questions, "C").percentage == Some(100.0)
  {
    assert questions[..2][..1][..0] == [];
    assert questions[..2][..1] == questions[..1];
    assert questions[..|questions| - 1] == questions[..2];
    assert CountTagged(questions[..1], "O") == 1 && CountTagged(questions[..1], "C") == 0;
    assert CountTagged(questions[..2], "O") == 1 && CountTagged(questions[..2], "C") == 1;
    assert CountTagged(questions, "O") == 1;
    assert CountTagged(questions, "C") == 2;
    assert results[1..] == [Entry("C", 10)];
    assert Position(results, "C") == Some(1);
  }
}
