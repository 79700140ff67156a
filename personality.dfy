/**
 * The Big Five personality test: Likert answers from 1 to 5 added up into
 * the five dimensions Openness, Conscientiousness, Extraversion,
 * Agreeableness and Neuroticism.
 */
module Personality {
  import opened Wrappers
  import opened Dict
  import opened Types
  import opened BigFiveResults
  import opened Ratio
  import Navigation

  /** The five answer buttons. */
  type Likert = x: int | 1 <= x <= 5 witness 3

  /** An unanswered question counts as the neutral answer. */
  const Neutral: Likert := 3

  /** `{ O: 0, C: 0, E: 0, A: 0, N: 0 }`. */
  const Initial: Dict<int> := [Entry("O", 0), Entry("C", 0), Entry("E", 0), Entry("A", 0), Entry("N", 0)]

  predicate IsDimension(tag: string) {
    tag == "O" || tag == "C" || tag == "E" || tag == "A" || tag == "N"
  }

  /** `answers[q.id] || 3`. */
  function AnswerOrNeutral(answers: Dict<Likert>, id: string): (score: Likert)
    ensures HasKey(answers, id) ==> Get(answers, id) == Some(score)
    ensures !HasKey(answers, id) ==> score == Neutral
  {
    GetOr(answers, id, Neutral)
  }

  /** One question's turn in the `forEach`: only a known dimension takes the score. */
  function AddAnswer(acc: Dict<int>, q: BigFiveQuestion, answers: Dict<Likert>): Dict<int> {
    if HasKey(acc, q.dimensao) then Set(acc, q.dimensao, GetOr(acc, q.dimensao, 0) + AnswerOrNeutral(answers, q.id))
    else acc
  }

  /** `handleFinish`'s results. */
  function BigFiveScores(questions: seq<BigFiveQuestion>, answers: Dict<Likert>): Dict<int> {
    if questions == [] then Initial
    else AddAnswer(BigFiveScores(questions[..|questions| - 1], answers), questions[|questions| - 1], answers)
  }

  /** The answers (or neutral values) of the questions tagged `dim`, added up. */
  function DimensionTotal(questions: seq<BigFiveQuestion>, answers: Dict<Likert>, dim: string): int {
    if questions == [] then 0
    else
      var q := questions[|questions| - 1];
      DimensionTotal(questions[..|questions| - 1], answers, dim) + if q.dimensao == dim then AnswerOrNeutral(answers, q.id) else 0
  }

  lemma InitialGet(k: string)
    ensures Get(Initial, k) == if IsDimension(k) then Some(0) else None
  {
    if !IsDimension(k) {
      assert !HasKey(Initial, k);
    } else {
      assert Initial[1..][1..][1..][1..] == [Entry("N", 0)];
    }
  }

  /**
   * The results hold exactly the five dimensions, each with the total of its
   * questions' answers; questions tagged with anything else count nowhere.
   */
  lemma {:induction false} BigFiveScoresGet(questions: seq<BigFiveQuestion>, answers: Dict<Likert>, k: string)
    ensures Get(BigFiveScores(questions, answers), k)
            == if IsDimension(k) then Some(DimensionTotal(questions, answers, k)) else None
  {
    if questions == [] {
      InitialGet(k);
    } else {
      var earlier := questions[..|questions| - 1];
      var q := questions[|questions| - 1];
      var acc := BigFiveScores(earlier, answers);
      BigFiveScoresGet(earlier, answers, k);
      AddAnswerGet(acc, q, answers, k);
      assert BigFiveScores(questions, answers) == AddAnswer(acc, q, answers);
      if k == q.dimensao {
        assert HasKey(acc, k) <==> IsDimension(k);
        if IsDimension(k) {
          assert GetOr(acc, k, 0) == DimensionTotal(earlier, answers, k);
        }
      }
    }
  }

  /** One question: its dimension, when the results have it, gains the answer; nothing else changes. */
  lemma AddAnswerGet(acc: Dict<int>, q: BigFiveQuestion, answers: Dict<Likert>, k: string)
    ensures Get(AddAnswer(acc, q, answers), k)
            == if HasKey(acc, q.dimensao) && k == q.dimensao then Some(GetOr(acc, k, 0) + AnswerOrNeutral(answers, q.id))
               else Get(acc, k)
  {
    if HasKey(acc, q.dimensao) {
      GetSet(acc, q.dimensao, GetOr(acc, q.dimensao, 0) + AnswerOrNeutral(answers, q.id), k);
    }
  }

  /** The keys stay O, C, E, A, N, in that order. */
  lemma {:induction false} BigFiveScoresKeys(questions: seq<BigFiveQuestion>, answers: Dict<Likert>)
    ensures |BigFiveScores(questions, answers)| == 5
    ensures forall i :: 0 <= i < 5 ==> BigFiveScores(questions, answers)[i].key == Initial[i].key
  {
    if questions != [] {
      BigFiveScoresKeys(questions[..|questions| - 1], answers);
    }
  }

  /** With k questions tagged with a dimension, its total lies between k and 5k. */
  lemma {:induction false} DimensionTotalBounds(questions: seq<BigFiveQuestion>, answers: Dict<Likert>, dim: string)
    ensures CountTagged(questions, dim) <= DimensionTotal(questions, answers, dim) <= 5 * CountTagged(questions, dim)
  {
    if questions != [] {
      DimensionTotalBounds(questions[..|questions| - 1], answers, dim);
    }
  }

  /**
   * Scored with a dimension's own maximum, every dimension that has questions
   * fills between 20 and 100 percent of its bar.
   */
  lemma ResultsFitTheirBars(questions: seq<BigFiveQuestion>, answers: Dict<Likert>, dim: string)
    requires IsDimension(dim) && CountTagged(questions, dim) > 0
    ensures 20.0 <= RowFor(BigFiveScores(questions, answers), questions, dim).percentage.value <= 100.0
  {
    BigFiveScoresGet(questions, answers, dim);
    DimensionTotalBounds(questions, answers, dim);
    PercentageOfLikertTotal(DimensionTotal(questions, answers, dim), CountTagged(questions, dim));
  }

  /** k answers between 1 and 5 make between 20 and 100 percent of 5k. */
  lemma PercentageOfLikertTotal(score: int, k: nat)
    requires 0 < k <= score <= 5 * k
    ensures 20.0 <= Percentage(score, 5 * k).value <= 100.0
  {
    var m := (5 * k) as real;
    assert 20.0 * m == 100.0 * k as real && 100.0 * m == 500.0 * k as real;
    QuotientWithin(score as real * 100.0, m, 20.0, 100.0);
  }

  lemma BigFiveScoresStep(questions: seq<BigFiveQuestion>, answers: Dict<Likert>, n: nat)
    requires n < |questions|
    ensures BigFiveScores(questions[..n + 1], answers) == AddAnswer(BigFiveScores(questions[..n], answers), questions[n], answers)
  {
    assert questions[..n + 1][..n] == questions[..n];
  }

  /** The `forEach` of `handleFinish`. */
  method ScoreBigFive(questions: seq<BigFiveQuestion>, answers: Dict<Likert>) returns (results: Dict<int>)
    ensures results == BigFiveScores(questions, answers)
  {
    results := Initial;
    for n := 0 to |questions|
      invariant results == BigFiveScores(questions[..n], answers)
    {
      BigFiveScoresStep(questions, answers, n);
      results := AddAnswer(results, questions[n], answers);
    }
    assert questions[..|questions|] == questions;
  }

  /** The Big Five test screen. */
  class PersonalityTest {
    const questions: seq<BigFiveQuestion>
    var currentQuestionIndex: nat
    var answers: Dict<Likert>
    var results: Option<Dict<int>>

    ghost predicate Valid()
      reads this
    {
      currentQuestionIndex < |questions| && UniqueKeys(answers)
    }

    /** The screen renders `questions[currentQuestionIndex]` at once, so there is at least one question. */
    constructor (questions: seq<BigFiveQuestion>)
      requires |questions| > 0
      ensures Valid()
      ensures this.questions == questions && currentQuestionIndex == 0 && answers == [] && results == None
    {
      this.questions := questions;
      currentQuestionIndex, answers, results := 0, [], None;
    }

    /**
     * `handleAnswer`: records or overwrites this question's answer, leaves
     * every other answer alone and moves on unless this is the last question.
     */
    method HandleAnswer(questionId: string, score: Likert)
      requires Valid()
      modifies this
      ensures Valid()
      ensures answers == Set(old(answers), questionId, score)
      ensures forall k :: Get(answers, k) == if k == questionId then Some(score) else Get(old(answers), k)
      ensures currentQuestionIndex == Navigation.Next(old(currentQuestionIndex), |questions|)
      ensures results == old(results)
    {
      forall k ensures Get(Set(answers, questionId, score), k) == if k == questionId then Some(score) else Get(answers, k) {
        GetSet(answers, questionId, score, k);
      }
      SetUniqueKeys(answers, questionId, score);
      answers := Set(answers, questionId, score);
      currentQuestionIndex := Navigation.Next(currentQuestionIndex, |questions|);
    }

    method HandleNext()
      requires Valid()
      modifies this
      ensures Valid()
      ensures currentQuestionIndex == Navigation.Next(old(currentQuestionIndex), |questions|)
      ensures answers == old(answers) && results == old(results)
    {
      currentQuestionIndex := Navigation.Next(currentQuestionIndex, |questions|);
    }

    method HandlePrevious()
      requires Valid()
      modifies this
      ensures Valid()
      ensures currentQuestionIndex == Navigation.Previous(old(currentQuestionIndex))
      ensures answers == old(answers) && results == old(results)
    {
      currentQuestionIndex := Navigation.Previous(currentQuestionIndex);
    }

    /** `handleFinish`: the five totals. */
    method HandleFinish()
      requires Valid()
      modifies this
      ensures Valid()
      ensures results == Some(BigFiveScores(questions, answers))
      ensures currentQuestionIndex == old(currentQuestionIndex) && answers == old(answers)
    {
      var scores := ScoreBigFive(questions, answers);
      results := Some(scores);
    }

    method HandleReset()
      requires Valid()
      modifies this
      ensures Valid()
      ensures answers == [] && currentQuestionIndex == 0 && results == None
    {
      answers, currentQuestionIndex, results := [], 0, None;
    }
  }
}
