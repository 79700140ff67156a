/**
 * The situational-judgment test: each scenario offers options, each option
 * awards points to some competencies, and the result adds up the points of
 * every chosen option, competency by competency.
 */
module Sjt {
  import opened Wrappers
  import opened Dict
  import opened Types
  import Navigation

  /** `opcoes.find(o => o.id === id)`: the first option with that id. */
  function FindOption(opcoes: seq<SjtOption>, id: string): (r: Option<SjtOption>)
    ensures r.Some? ==> r.value in opcoes && r.value.id == id
    ensures r.None? <==> forall o :: o in opcoes ==> o.id != id
    ensures r.Some? ==> exists i :: 0 <= i < |opcoes| && opcoes[i] == r.value && forall j :: 0 <= j < i ==> opcoes[j].id != id
  {
    if opcoes == [] then None
    else if opcoes[0].id == id then Some(opcoes[0])
    else
      var r := FindOption(opcoes[1..], id);
      if r.Some? then
        var i :| 0 <= i < |opcoes| - 1 && opcoes[1..][i] == r.value && forall j :: 0 <= j < i ==> opcoes[1..][j].id != id;
        assert opcoes[i + 1] == r.value && forall j :: 0 <= j < i + 1 ==> opcoes[j].id != id;
        r
      else r
  }

  /** The option id recorded for a scenario, when it is a non-empty string (`if (selectedOptionId)`). */
  function Chosen(answers: Dict<string>, scenarioId: string): (r: Option<string>)
    ensures r.Some? <==> Get(answers, scenarioId).Some? && Get(answers, scenarioId).value != ""
    ensures r.Some? ==> r == Get(answers, scenarioId)
  {
    match Get(answers, scenarioId)
    case None => None
    case Some(id) => if id == "" then None else Some(id)
  }

  /** The option the candidate chose for a scenario and that the scenario offers. */
  function Selected(scenario: SjtScenario, answers: Dict<string>): Option<SjtOption> {
    match Chosen(answers, scenario.id)
    case None => None
    case Some(id) => FindOption(scenario.opcoes, id)
  }

  /** `scores[competency] = (scores[competency] || 0) + points`. */
  function Bump(scores: Dict<int>, award: Entry<int>): Dict<int> {
    Set(scores, award.key, GetOr(scores, award.key, 0) + award.value)
  }

  /** The loop over `Object.entries(selectedOption.pontos)`. */
  function AddPoints(scores: Dict<int>, pontos: Dict<int>): Dict<int> {
    if pontos == [] then scores else Bump(AddPoints(scores, pontos[..|pontos| - 1]), pontos[|pontos| - 1])
  }

  /** One scenario's turn in `scenarios.forEach`. */
  function ScoreScenario(scores: Dict<int>, scenario: SjtScenario, answers: Dict<string>): Dict<int> {
    match Selected(scenario, answers)
    case None => scores
    case Some(option) => AddPoints(scores, option.pontos)
  }

  /** `handleFinish`'s scores, starting from the empty object. */
  function SjtScores(scenarios: seq<SjtScenario>, answers: Dict<string>): Dict<int> {
    if scenarios == [] then []
    else ScoreScenario(SjtScores(scenarios[..|scenarios| - 1], answers), scenarios[|scenarios| - 1], answers)
  }

  /** The point tables of the chosen options, scenario by scenario. */
  function Awarded(scenarios: seq<SjtScenario>, answers: Dict<string>): seq<Dict<int>> {
    if scenarios == [] then []
    else
      var earlier := Awarded(scenarios[..|scenarios| - 1], answers);
      match Selected(scenarios[|scenarios| - 1], answers)
      case None => earlier
      case Some(option) => earlier + [option.pontos]
  }

  /** Table `pontos` names competency `k` (`HasKey`, counted from the end). */
  predicate Names(pontos: Dict<int>, k: string) {
    pontos != [] && (Names(pontos[..|pontos| - 1], k) || pontos[|pontos| - 1].key == k)
  }

  /** The points one table awards competency `k`. */
  function PointsFor(pontos: Dict<int>, k: string): int {
    if pontos == [] then 0
    else PointsFor(pontos[..|pontos| - 1], k) + (if pontos[|pontos| - 1].key == k then pontos[|pontos| - 1].value else 0)
  }

  /** Some table among `tables` names competency `k`. */
  predicate Mentioned(tables: seq<Dict<int>>, k: string) {
    tables != [] && (Mentioned(tables[..|tables| - 1], k) || Names(tables[|tables| - 1], k))
  }

  /** The points several tables award competency `k`. */
  function TotalFor(tables: seq<Dict<int>>, k: string): int {
    if tables == [] then 0 else TotalFor(tables[..|tables| - 1], k) + PointsFor(tables[|tables| - 1], k)
  }

  lemma HasKeySnoc<V>(d: Dict<V>, k: string)
    requires d != []
    ensures HasKey(d, k) <==> HasKey(d[..|d| - 1], k) || d[|d| - 1].key == k
  {
    if HasKey(d, k) && d[|d| - 1].key != k {
      var i :| 0 <= i < |d| && d[i].key == k;
      assert d[..|d| - 1][i].key == k;
    }
    if HasKey(d[..|d| - 1], k) {
      var i :| 0 <= i < |d| - 1 && d[..|d| - 1][i].key == k;
      assert d[i].key == k;
    }
  }

  /** `Names` is `HasKey`. */
  lemma {:induction false} NamesHasKey(pontos: Dict<int>, k: string)
    ensures Names(pontos, k) <==> HasKey(pontos, k)
  {
    if pontos != [] {
      NamesHasKey(pontos[..|pontos| - 1], k);
      HasKeySnoc(pontos, k);
    }
  }

  /** One award: its competency gains its points, the others keep theirs. */
  lemma BumpGet(scores: Dict<int>, award: Entry<int>, k: string)
    ensures Get(Bump(scores, award), k) == if award.key == k then Some(GetOr(scores, k, 0) + award.value) else Get(scores, k)
  {
    var v := GetOr(scores, award.key, 0) + award.value;
    GetSet(scores, award.key, v, k);
    if award.key == k {
      assert Get(Bump(scores, award), k) == Some(v);
    } else {
      assert Get(Bump(scores, award), k) == Get(scores, k);
    }
  }

  /** A table that does not name a competency awards it nothing. */
  lemma {:induction false} PointsForAbsent(pontos: Dict<int>, k: string)
    requires !Names(pontos, k)
    ensures PointsFor(pontos, k) == 0
  {
    if pontos != [] {
      PointsForAbsent(pontos[..|pontos| - 1], k);
    }
  }

  /**
   * Adding one option's points: a competency the option names gains the
   * points it awards (from 0 when it had none); every other one is untouched.
   */
  lemma {:induction false} AddPointsGet(scores: Dict<int>, pontos: Dict<int>, k: string)
    ensures Get(AddPoints(scores, pontos), k)
            == if Names(pontos, k) then Some(GetOr(scores, k, 0) + PointsFor(pontos, k)) else Get(scores, k)
  {
    if pontos != [] {
      var earlier := pontos[..|pontos| - 1];
      AddPointsGet(scores, earlier, k);
      BumpGet(AddPoints(scores, earlier), pontos[|pontos| - 1], k);
      if !Names(earlier, k) {
        PointsForAbsent(earlier, k);
      }
    }
  }

  /**
   * The result has an entry for exactly the competencies some chosen option
   * names, and it holds the sum of their points over every chosen option.
   */
  lemma {:induction false} SjtScoresGet(scenarios: seq<SjtScenario>, answers: Dict<string>, k: string)
    ensures Get(SjtScores(scenarios, answers), k)
            == if Mentioned(Awarded(scenarios, answers), k) then Some(TotalFor(Awarded(scenarios, answers), k)) else None
  {
    if scenarios != [] {
      var earlier := scenarios[..|scenarios| - 1];
      var tables := Awarded(earlier, answers);
      SjtScoresGet(earlier, answers, k);
      match Selected(scenarios[|scenarios| - 1], answers)
      case None =>
      case Some(option) =>
        assert Awarded(scenarios, answers) == tables + [option.pontos];
        AddTableGet(SjtScores(earlier, answers), tables, option.pontos, k);
    }
  }

  /** Adding one more chosen option keeps the result in step with its tables. */
  lemma AddTableGet(acc: Dict<int>, tables: seq<Dict<int>>, pontos: Dict<int>, k: string)
    requires Get(acc, k) == if Mentioned(tables, k) then Some(TotalFor(tables, k)) else None
    ensures Get(AddPoints(acc, pontos), k)
            == if Mentioned(tables + [pontos], k) then Some(TotalFor(tables + [pontos], k)) else None
  {
    AddPointsGet(acc, pontos, k);
    var more := tables + [pontos];
    assert more[..|tables|] == tables && more[|tables|] == pontos;
    assert Mentioned(more, k) <==> Mentioned(tables, k) || Names(pontos, k);
    assert TotalFor(more, k) == TotalFor(tables, k) + PointsFor(pontos, k);
    if !Mentioned(tables, k) {
      TotalForAbsent(tables, k);
    }
    if !Names(pontos, k) {
      PointsForAbsent(pontos, k);
    }
  }

  /** Tables that never name a competency award it nothing. */
  lemma {:induction false} TotalForAbsent(tables: seq<Dict<int>>, k: string)
    requires !Mentioned(tables, k)
    ensures TotalFor(tables, k) == 0
  {
    if tables != [] {
      TotalForAbsent(tables[..|tables| - 1], k);
      PointsForAbsent(tables[|tables| - 1], k);
    }
  }

  lemma {:induction false} AddPointsUniqueKeys(scores: Dict<int>, pontos: Dict<int>)
    requires UniqueKeys(scores)
    ensures UniqueKeys(AddPoints(scores, pontos))
  {
    if pontos != [] {
      var acc := AddPoints(scores, pontos[..|pontos| - 1]);
      var award := pontos[|pontos| - 1];
      AddPointsUniqueKeys(scores, pontos[..|pontos| - 1]);
      SetUniqueKeys(acc, award.key, GetOr(acc, award.key, 0) + award.value);
    }
  }

  /** Each competency appears once in the result. */
  lemma {:induction false} SjtScoresUniqueKeys(scenarios: seq<SjtScenario>, answers: Dict<string>)
    ensures UniqueKeys(SjtScores(scenarios, answers))
  {
    if scenarios != [] {
      SjtScoresUniqueKeys(scenarios[..|scenarios| - 1], answers);
      match Selected(scenarios[|scenarios| - 1], answers)
      case None =>
      case Some(option) =>
        AddPointsUniqueKeys(SjtScores(scenarios[..|scenarios| - 1], answers), option.pontos);
    }
  }

  /**
   * An answer that names no option of its scenario (or of any scenario with
   * that id) scores exactly as if the scenario had been left unanswered.
   */
  lemma {:induction false} UnofferedOptionIgnored(scenarios: seq<SjtScenario>, answers: Dict<string>, scenarioId: string, optionId: string)
    requires forall s :: s in scenarios && s.id == scenarioId ==> FindOption(s.opcoes, optionId).None?
    ensures SjtScores(scenarios, Set(answers, scenarioId, optionId)) == SjtScores(scenarios, Set(answers, scenarioId, ""))
  {
    if scenarios != [] {
      var last := scenarios[|scenarios| - 1];
      UnofferedOptionIgnored(scenarios[..|scenarios| - 1], answers, scenarioId, optionId);
      GetSet(answers, scenarioId, optionId, last.id);
      GetSet(answers, scenarioId, "", last.id);
      assert Selected(last, Set(answers, scenarioId, optionId)) == Selected(last, Set(answers, scenarioId, ""));
    }
  }

  /** The loops of `handleFinish`. */
  method ScoreSjt(scenarios: seq<SjtScenario>, answers: Dict<string>) returns (scores: Dict<int>)
    ensures scores == SjtScores(scenarios, answers)
  {
    scores := [];
    for n := 0 to |scenarios|
      invariant scores == SjtScores(scenarios[..n], answers)
    {
      assert scenarios[..n + 1][..n] == scenarios[..n];
      var scenario := scenarios[n];
      assert SjtScores(scenarios[..n + 1], answers) == ScoreScenario(scores, scenario, answers);
      var selectedOptionId := Chosen(answers, scenario.id);
      if selectedOptionId.Some? {
        var selectedOption := FindOption(scenario.opcoes, selectedOptionId.value);
        if selectedOption.Some? {
          scores := AddAll(scores, selectedOption.value.pontos);
        }
      }
    }
    assert scenarios[..|scenarios|] == scenarios;
  }

  /** The inner loop over `Object.entries(selectedOption.pontos)`. */
  method AddAll(scores: Dict<int>, pontos: Dict<int>) returns (r: Dict<int>)
    ensures r == AddPoints(scores, pontos)
  {
    r := scores;
    for j := 0 to |pontos|
      invariant r == AddPoints(scores, pontos[..j])
    {
      assert pontos[..j + 1][..j] == pontos[..j];
      r := Set(r, pontos[j].key, GetOr(r, pontos[j].key, 0) + pontos[j].value);
    }
    assert pontos[..|pontos|] == pontos;
  }

  /** `Math.max(...Object.values(results), 10)`: the length of the longest bar. */
  function DisplayMax(values: seq<int>): (m: int)
    ensures m >= 10
    ensures forall i :: 0 <= i < |values| ==> values[i] <= m
    ensures m == 10 || exists i :: 0 <= i < |values| && values[i] == m
  {
    if values == [] then 10
    else
      var rest := DisplayMax(values[1..]);
      assert forall i :: 1 <= i < |values| ==> values[i] == values[1..][i - 1];
      if values[0] > rest then values[0] else rest
  }

  /** The SJT test screen. */
  class SjtTest {
    const scenarios: seq<SjtScenario>
    var currentIndex: nat
    var answers: Dict<string>
    var results: Option<Dict<int>>

    ghost predicate Valid()
      reads this
    {
      currentIndex < |scenarios| && UniqueKeys(answers)
    }

    /** The screen renders `scenarios[currentIndex]` at once, so there is at least one scenario. */
    constructor (scenarios: seq<SjtScenario>)
      requires |scenarios| > 0
      ensures Valid()
      ensures this.scenarios == scenarios && currentIndex == 0 && answers == [] && results == None
    {
      this.scenarios := scenarios;
      currentIndex, answers, results := 0, [], None;
    }

    /** `handleSelectOption`: records the option for the current scenario, replacing any earlier choice. */
    method HandleSelectOption(optionId: string)
      requires Valid()
      modifies this
      ensures Valid()
      ensures answers == Set(old(answers), scenarios[currentIndex].id, optionId)
      ensures Get(answers, scenarios[currentIndex].id) == Some(optionId)
      ensures currentIndex == old(currentIndex) && results == old(results)
    {
      SetUniqueKeys(answers, scenarios[currentIndex].id, optionId);
      GetSet(answers, scenarios[currentIndex].id, optionId, scenarios[currentIndex].id);
      answers := Set(answers, scenarios[currentIndex].id, optionId);
    }

    method HandleNext()
      requires Valid()
      modifies this
      ensures Valid()
      ensures currentIndex == Navigation.Next(old(currentIndex), |scenarios|)
      ensures answers == old(answers) && results == old(results)
    {
      currentIndex := Navigation.Next(currentIndex, |scenarios|);
    }

    method HandlePrevious()
      requires Valid()
      modifies this
      ensures Valid()
      ensures currentIndex == Navigation.Previous(old(currentIndex))
      ensures answers == old(answers) && results == old(results)
    {
      currentIndex := Navigation.Previous(currentIndex);
    }

    /** `handleFinish`: the points of every chosen option, added up by competency. */
    method HandleFinish()
      requires Valid()
      modifies this
      ensures Valid()
      ensures results == Some(SjtScores(scenarios, answers))
      ensures currentIndex == old(currentIndex) && answers == old(answers)
    {
      var scores := ScoreSjt(scenarios, answers);
      results := Some(scores);
    }

    method HandleReset()
      requires Valid()
      modifies this
      ensures Valid()
      ensures answers == [] && currentIndex == 0 && results == None
    {
      answers, currentIndex, results := [], 0, None;
    }
  }
}
