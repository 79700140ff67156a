/**
 * The DISC forced-choice test: for each question the candidate marks the
 * word most like them and the word least like them; a profile gains a point
 * for every "most" and loses one for every "least".
 */
module Disc {
  import opened Wrappers
  import opened Dict
  import opened Types
  import Navigation
  import opened Ratio

  datatype Slot = Most | Least

  function Other(slot: Slot): Slot {
    match slot
    case Most => Least
    case Least => Most
  }

  /** One question's answer: `{ most?: string, least?: string }`. */
  datatype DiscAnswer = DiscAnswer(most: Option<Profile>, least: Option<Profile>) {
    function Held(slot: Slot): Option<Profile> {
      match slot
      case Most => most
      case Least => least
    }

    function With(slot: Slot, p: Option<Profile>): DiscAnswer {
      match slot
      case Most => this.(most := p)
      case Least => this.(least := p)
    }
  }

  const NoAnswer := DiscAnswer(None, None)

  /** The two slots of an answer never name the same profile. */
  predicate Distinct(a: DiscAnswer) {
    !(a.most.Some? && a.most == a.least)
  }

  /**
   * `handleSelect` on one answer: choosing the profile a slot already holds
   * clears it; otherwise the slot takes the profile, and the other slot lets
   * go of it if it held it.
   */
  function Select(a: DiscAnswer, slot: Slot, p: Profile): (r: DiscAnswer)
    ensures Distinct(r)
    ensures r.Held(slot) == Some(p) <==> a.Held(slot) != Some(p)
    ensures r.Held(slot).Some? ==> r.Held(slot) == Some(p)
    ensures r.Held(Other(slot)) == if a.Held(Other(slot)) == Some(p) && a.Held(slot) != Some(p) then None
                                   else a.Held(Other(slot))
  {
    if a.Held(slot) == Some(p) then a.With(slot, None)
    else
      var b := a.With(slot, Some(p));
      if b.Held(Other(slot)) == Some(p) then b.With(Other(slot), None) else b
  }

  /**
   * Selecting the same profile twice in the same slot restores the answer
   * exactly when the slot was empty or already held that profile, and the
   * other slot did not hold it.
   */
  lemma SelectTwice(a: DiscAnswer, slot: Slot, p: Profile)
    ensures Select(Select(a, slot, p), slot, p) == a <==>
              (a.Held(slot) == None || a.Held(slot) == Some(p)) && a.Held(Other(slot)) != Some(p)
  {
    var once := Select(a, slot, p);
    var twice := Select(once, slot, p);
    if twice == a {
      assert a.Held(Other(slot)) != Some(p);
      if a.Held(slot) != Some(p) {
        assert twice.Held(slot) == None;
      }
    }
  }

  /** The four tallies, `{ D: 0, I: 0, S: 0, C: 0 }` to begin with. */
  datatype DiscScores = DiscScores(d: int, i: int, s: int, c: int) {
    function Get(p: Profile): int {
      match p
      case D => d
      case I => i
      case S => s
      case C => c
    }

    function Add(p: Profile, delta: int): DiscScores {
      DiscScores(if p == D then d + delta else d, if p == I then i + delta else i,
                 if p == S then s + delta else s, if p == C then c + delta else c)
    }

    function Sum(): int {
      d + i + s + c
    }
  }

  const Zero := DiscScores(0, 0, 0, 0)

  /** The tally after one answer: +1 for its "most", -1 for its "least". */
  function Score(acc: DiscScores, a: DiscAnswer): DiscScores {
    var withMost := if a.most.Some? then acc.Add(a.most.value, 1) else acc;
    if a.least.Some? then withMost.Add(a.least.value, -1) else withMost
  }

  /** The tally over a list of answers. */
  function Tally(answers: seq<DiscAnswer>): DiscScores {
    if answers == [] then Zero else Score(Tally(answers[..|answers| - 1]), answers[|answers| - 1])
  }

  function CountMost(answers: seq<DiscAnswer>, p: Profile): nat {
    if answers == [] then 0
    else CountMost(answers[..|answers| - 1], p) + (if answers[|answers| - 1].most == Some(p) then 1 else 0)
  }

  function CountLeast(answers: seq<DiscAnswer>, p: Profile): nat {
    if answers == [] then 0
    else CountLeast(answers[..|answers| - 1], p) + (if answers[|answers| - 1].least == Some(p) then 1 else 0)
  }

  /** How many answers have a "most" / a "least" at all. */
  function MostPicks(answers: seq<DiscAnswer>): nat {
    if answers == [] then 0
    else MostPicks(answers[..|answers| - 1]) + (if answers[|answers| - 1].most.Some? then 1 else 0)
  }

  function LeastPicks(answers: seq<DiscAnswer>): nat {
    if answers == [] then 0
    else LeastPicks(answers[..|answers| - 1]) + (if answers[|answers| - 1].least.Some? then 1 else 0)
  }

  /** Each profile's tally is its "most" picks minus its "least" picks. */
  lemma {:induction false} TallyCounts(answers: seq<DiscAnswer>, p: Profile)
    ensures Tally(answers).Get(p) == CountMost(answers, p) - CountLeast(answers, p)
    ensures CountMost(answers, p) <= |answers| && CountLeast(answers, p) <= |answers|
  {
    if answers != [] {
      TallyCounts(answers[..|answers| - 1], p);
    }
  }

  /** With N answers every tally lies in [-N, N]. */
  lemma TallyBounds(answers: seq<DiscAnswer>, p: Profile)
    ensures -|answers| <= Tally(answers).Get(p) <= |answers|
  {
    TallyCounts(answers, p);
  }

  /** The four tallies add up to the number of "most" picks minus the number of "least" picks. */
  lemma {:induction false} TallySum(answers: seq<DiscAnswer>)
    ensures Tally(answers).Sum() == MostPicks(answers) - LeastPicks(answers)
  {
    if answers != [] {
      TallySum(answers[..|answers| - 1]);
    }
  }

  /** The loop of `handleFinish` over `Object.values(answers)`. */
  method TallyAnswers(answers: seq<DiscAnswer>) returns (scores: DiscScores)
    ensures scores == Tally(answers)
  {
    scores := Zero;
    for k := 0 to |answers|
      invariant scores == Tally(answers[..k])
    {
      assert answers[..k + 1][..k] == answers[..k];
      var answer := answers[k];
      if answer.most.Some? {
        scores := scores.Add(answer.most.value, 1);
      }
      if answer.least.Some? {
        scores := scores.Add(answer.least.value, -1);
      }
    }
    assert answers[..|answers|] == answers;
  }

  /** `Math.max(...scores.map(Math.abs), 1)`: the length of the longest bar. */
  function DisplayMax(scores: DiscScores): (m: int)
    ensures m >= 1
    ensures forall p :: Abs(scores.Get(p)) <= m
    ensures m == 1 || exists p :: Abs(scores.Get(p)) == m
  {
    var m := Max(Max(Abs(scores.d), Abs(scores.i)), Max(Max(Abs(scores.s), Abs(scores.c)), 1));
    EveryProfileBelow(scores, m);
    assert m == 1 || m == Abs(scores.Get(D)) || m == Abs(scores.Get(I))
           || m == Abs(scores.Get(S)) || m == Abs(scores.Get(C));
    m
  }

  lemma EveryProfileBelow(scores: DiscScores, m: int)
    requires Abs(scores.d) <= m && Abs(scores.i) <= m && Abs(scores.s) <= m && Abs(scores.c) <= m
    ensures forall p :: Abs(scores.Get(p)) <= m
  {
    forall p ensures Abs(scores.Get(p)) <= m {
      match p
      case D =>
      case I =>
      case S =>
      case C =>
    }
  }

  function Abs(x: int): nat {
    if x < 0 then -x else x
  }

  function Max(a: int, b: int): int {
    if a < b then b else a
  }

  /** A profile's bar fills a fraction of the track between 0 and 1. */
  function BarRatio(scores: DiscScores, p: Profile): (r: real)
    ensures 0.0 <= r <= 1.0
  {
    var a, m := Abs(scores.Get(p)), DisplayMax(scores);
    DivisionWithin(a, m, 0, 1);
    a as real / m as real
  }

  /** The DISC test screen. */
  class DiscTest {
    const questions: seq<DiscQuestion>
    var currentIndex: nat
    var answers: Dict<DiscAnswer>
    var results: Option<DiscScores>

    /** The index points at a question, each question has at most one answer, and no answer names a profile in both slots. */
    ghost predicate Valid()
      reads this
    {
      && currentIndex < |questions|
      && UniqueKeys(answers)
      && forall k :: 0 <= k < |answers| ==> Distinct(answers[k].value)
    }

    /** The screen renders `questions[currentIndex]` at once, so the test has at least one question. */
    constructor (questions: seq<DiscQuestion>)
      requires |questions| > 0
      ensures Valid()
      ensures this.questions == questions && currentIndex == 0 && answers == [] && results == None
    {
      this.questions := questions;
      currentIndex, answers, results := 0, [], None;
    }

    /** `handleSelect`: updates the current question's answer, and only that one. */
    method HandleSelect(slot: Slot, p: Profile)
      requires Valid()
      modifies this
      ensures Valid()
      ensures var id := questions[currentIndex].id;
              answers == Set(old(answers), id, Select(GetOr(old(answers), id, NoAnswer), slot, p))
      ensures currentIndex == old(currentIndex) && results == old(results)
    {
      var id := questions[currentIndex].id;
      var updated := Select(GetOr(answers, id, NoAnswer), slot, p);
      ghost var before := answers;
      answers := Set(answers, id, updated);
      SetKeys(before, id, updated);
      SetUniqueKeys(before, id, updated);
      forall k | 0 <= k < |answers| ensures Distinct(answers[k].value) {
        if answers[k].key != id {
          assert k < |before| && answers[k] == before[k];
        }
      }
    }

    method HandleNext()
      requires Valid()
      modifies this
      ensures Valid()
      ensures currentIndex == Navigation.Next(old(currentIndex), |questions|)
      ensures answers == old(answers) && results == old(results)
    {
      currentIndex := Navigation.Next(currentIndex, |questions|);
    }

    method HandlePrevious()
      requires Valid()
      modifies this
      ensures Valid()
      ensures currentIndex == Navigation.Previous(old(currentIndex))
      ensures answers == old(answers) && results == old(results)
    {
      currentIndex := Navigation.Previous(currentIndex);
    }

    /** `handleFinish`: the tallies over every recorded answer. */
    method HandleFinish()
      requires Valid()
      modifies this
      ensures Valid()
      ensures results == Some(Tally(Values(answers)))
      ensures currentIndex == old(currentIndex) && answers == old(answers)
    {
      var scores := TallyAnswers(Values(answers));
      results := Some(scores);
    }

    /** `handleReset`: no answers, first question, no results. */
    method HandleReset()
      requires Valid()
      modifies this
      ensures Valid()
      ensures answers == [] && currentIndex == 0 && results == None
    {
      answers, currentIndex, results := [], 0, None;
    }
  }

  /** Three questions: most D, I, D and least S, C, I give D = 2, I = 0, S = -1, C = -1. */
  lemma ThreeQuestionExample()
    ensures Tally([DiscAnswer(Some(D), Some(S)), DiscAnswer(Some(I), Some(C)), DiscAnswer(Some(D), Some(I))])
            == DiscScores(2, 0, -1, -1)
  {
    var answers := [DiscAnswer(Some(D), Some(S)), DiscAnswer(Some(I), Some(C)), DiscAnswer(Some(D), Some(I))];
    var none: seq<DiscAnswer> := [];
    assert answers[..1][..0] == none;
    assert Tally(answers[..1]) == DiscScores(1, 0, -1, 0);
    assert answers[..2][..1] == answers[..1];
    assert Tally(answers[..2]) == DiscScores(1, 1, -1, -1);
    assert answers[..3][..2] == answers[..2];
    assert answers[..3] == answers;
  }
}
