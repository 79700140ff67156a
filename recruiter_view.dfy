/**
 * The recruiter's screen: the criterion editor, the guard in front of the
 * analysis, the split of the résumé text into one CV per candidate, and the
 * analysis handler that scores and ranks every candidate.
 */
module RecruiterView {
  import opened Wrappers
  import opened Text
  import opened Types
  import opened Ranking

  /** The three criteria the screen starts with and returns to on reset. */
  const DefaultCriteria: seq<Criterion> := [
    Criterion("c1", "Technical Skills", 4),
    Criterion("c2", "Relevant Experience", 4),
    Criterion("c3", "Communication Skills", 3)
  ]

  /** The message key shown when a batch analysis fails. */
  const TryAgain: string := "error.tryAgain"

  /** The criterion `addCriterion` creates at time `now`: no name yet, middle weight. */
  function NewCriterion(now: nat): (c: Criterion)
    ensures c.name == "" && c.weight == 3
  {
    Criterion("c" + NatToString(now), "", 3)
  }

  /** The one field an `updateCriterion` call sets. */
  datatype CriterionEdit = SetName(name: string) | SetWeight(weight: Weight)

  function Apply(c: Criterion, edit: CriterionEdit): Criterion {
    match edit
    case SetName(n) => c.(name := n)
    case SetWeight(w) => c.(weight := w)
  }

  /** `criteria.map(c => c.id === id ? { ...c, [field]: value } : c)`. */
  function UpdateById(criteria: seq<Criterion>, id: string, edit: CriterionEdit): (r: seq<Criterion>)
    ensures |r| == |criteria|
    ensures forall i :: 0 <= i < |r| ==> r[i].id == criteria[i].id
    ensures forall i :: 0 <= i < |r| && criteria[i].id != id ==> r[i] == criteria[i]
    ensures forall i :: 0 <= i < |r| && criteria[i].id == id && edit.SetName? ==>
              r[i].name == edit.name && r[i].weight == criteria[i].weight
    ensures forall i :: 0 <= i < |r| && criteria[i].id == id && edit.SetWeight? ==>
              r[i].weight == edit.weight && r[i].name == criteria[i].name
  {
    seq(|criteria|, i requires 0 <= i < |criteria| =>
      if criteria[i].id == id then Apply(criteria[i], edit) else criteria[i])
  }

  /** `criteria.filter(c => c.id !== id)`. */
  function RemoveById(criteria: seq<Criterion>, id: string): (r: seq<Criterion>)
    ensures |r| <= |criteria|
  {
    if criteria == [] then []
    else if criteria[0].id == id then RemoveById(criteria[1..], id)
    else [criteria[0]] + RemoveById(criteria[1..], id)
  }

  /** The criteria left are exactly those with a different id. */
  lemma {:induction false} RemoveByIdMembers(criteria: seq<Criterion>, id: string)
    ensures forall c :: c in RemoveById(criteria, id) <==> c in criteria && c.id != id
  {
    if criteria != [] {
      RemoveByIdMembers(criteria[1..], id);
      assert criteria == [criteria[0]] + criteria[1..];
    }
  }

  /** Removing an id that no criterion carries changes nothing. */
  lemma {:induction false} RemoveAbsentId(criteria: seq<Criterion>, id: string)
    requires forall i :: 0 <= i < |criteria| ==> criteria[i].id != id
    ensures RemoveById(criteria, id) == criteria
  {
    if criteria != [] {
      RemoveAbsentId(criteria[1..], id);
      assert criteria == [criteria[0]] + criteria[1..];
    }
  }

  /** Removing distributes over concatenation: the kept criteria keep their order. */
  lemma {:induction false} RemoveByIdAppend(a: seq<Criterion>, b: seq<Criterion>, id: string)
    ensures RemoveById(a + b, id) == RemoveById(a, id) + RemoveById(b, id)
  {
    if a == [] {
      assert a + b == b;
    } else {
      RemoveByIdAppend(a[1..], b, id);
      assert a + b == [a[0]] + (a[1..] + b);
      RemoveByIdCons(a[0], a[1..] + b, id);
      assert a == [a[0]] + a[1..];
      RemoveByIdCons(a[0], a[1..], id);
    }
  }

  lemma RemoveByIdCons(c: Criterion, rest: seq<Criterion>, id: string)
    ensures RemoveById([c] + rest, id) == if c.id == id then RemoveById(rest, id) else [c] + RemoveById(rest, id)
  {
    assert ([c] + rest)[0] == c && ([c] + rest)[1..] == rest;
  }

  /** Removing the criterion just added gives back the list it was added to. */
  lemma RemoveUndoesAdd(criteria: seq<Criterion>, now: nat)
    requires forall i :: 0 <= i < |criteria| ==> criteria[i].id != NewCriterion(now).id
    ensures RemoveById(criteria + [NewCriterion(now)], NewCriterion(now).id) == criteria
  {
    RemoveByIdAppend(criteria, [NewCriterion(now)], NewCriterion(now).id);
    RemoveAbsentId(criteria, NewCriterion(now).id);
    assert [NewCriterion(now)][1..] == [];
  }

  /** The guard of the analysis handler: job description, résumés and every criterion name non-blank. */
  predicate CanAnalyze(jobDescription: string, candidatesCv: string, criteria: seq<Criterion>)
    ensures CanAnalyze(jobDescription, candidatesCv, criteria) ==>
              jobDescription != "" && candidatesCv != "" && forall i :: 0 <= i < |criteria| ==> criteria[i].name != ""
  {
    && !IsBlank(jobDescription)
    && !IsBlank(candidatesCv)
    && forall i :: 0 <= i < |criteria| ==> !IsBlank(criteria[i].name)
  }

  /** The default criteria are all named, so with them only the two texts decide the guard. */
  lemma DefaultCriteriaPassGuard(jobDescription: string, candidatesCv: string)
    ensures CanAnalyze(jobDescription, candidatesCv, DefaultCriteria) <==> !IsBlank(jobDescription) && !IsBlank(candidatesCv)
  {
    forall i | 0 <= i < |DefaultCriteria| ensures !IsBlank(DefaultCriteria[i].name) {
      assert !IsWhitespace(DefaultCriteria[i].name[0]);
    }
  }

  /** A freshly added criterion has no name yet, so analysis stays blocked until it is named. */
  lemma NewCriterionBlocksAnalysis(jobDescription: string, candidatesCv: string, criteria: seq<Criterion>, now: nat)
    ensures !CanAnalyze(jobDescription, candidatesCv, criteria + [NewCriterion(now)])
  {
    assert (criteria + [NewCriterion(now)])[|criteria|].name == "";
  }

  /** `candidatesCv.split('---').filter(cv => cv.trim() !== '')`: one CV per candidate. */
  function CvPieces(candidatesCv: string): (pieces: seq<string>)
    ensures pieces == NonBlank(Split(candidatesCv))
    ensures forall p :: p in pieces ==> !IsBlank(p) && FindSeparator(p).None?
  {
    var parts := Split(candidatesCv);
    assert forall p :: p in parts ==> FindSeparator(p).None? by {
      forall p | p in parts ensures FindSeparator(p).None? {
        var k :| 0 <= k < |parts| && parts[k] == p;
        SplitPiecesHaveNoSeparator(candidatesCv, k);
      }
    }
    NonBlank(parts)
  }

  /**
   * A résumé text made only of the separator passes the guard, yet yields
   * no CV: the analysis then ranks nobody and reports no error.
   */
  lemma SeparatorOnlyTextYieldsNoCandidates(jobDescription: string)
    requires !IsBlank(jobDescription)
    ensures CanAnalyze(jobDescription, "---", DefaultCriteria)
    ensures CvPieces("---") == []
  {
    assert !IsWhitespace("---"[0]);
    assert !IsWhitespace(DefaultCriteria[0].name[0]);
    assert !IsWhitespace(DefaultCriteria[1].name[0]);
    assert !IsWhitespace(DefaultCriteria[2].name[0]);
    assert FindSeparator("---") == Some(0);
    assert Split("---") == ["", ""] by {
      assert "---"[..0] == "" && "---"[3..] == "";
      assert FindSeparator("") == None;
    }
    assert IsBlank("");
  }

  /**
   * `Promise.all` over the per-CV analyses: every result, in CV order, or
   * nothing when any one analysis fails.
   */
  function AnalyzeAll(
    analyze: (string, string, seq<Criterion>) -> Option<AnalysisResult>,
    jobDescription: string, cvs: seq<string>, criteria: seq<Criterion>): (r: Option<seq<AnalysisResult>>)
    ensures r.None? <==> exists i :: 0 <= i < |cvs| && analyze(jobDescription, cvs[i], criteria).None?
    ensures r.Some? ==> |r.value| == |cvs|
    ensures r.Some? ==> forall i :: 0 <= i < |cvs| ==> analyze(jobDescription, cvs[i], criteria) == Some(r.value[i])
  {
    if cvs == [] then Some([])
    else
      var head := analyze(jobDescription, cvs[0], criteria);
      var tail := AnalyzeAll(analyze, jobDescription, cvs[1..], criteria);
      assert forall i :: 1 <= i < |cvs| ==> cvs[i] == cvs[1..][i - 1];
      if head.None? || tail.None? then None else Some([head.value] + tail.value)
  }

  /** `cand-${index}-${Date.now()}`. */
  function CandidateId(index: nat, now: nat): string {
    "cand-" + NatToString(index) + "-" + NatToString(now)
  }

  /** The unsorted candidates: one per analysis, in CV order, each with its overall score. */
  function BuildCandidates(results: seq<AnalysisResult>, criteria: seq<Criterion>, now: nat): (cs: seq<Candidate>)
    ensures |cs| == |results|
  {
    if results == [] then []
    else
      var n := |results| - 1;
      BuildCandidates(results[..n], criteria, now)
        + [MakeCandidate(results[n], CandidateId(n, now), OverallScore(results[n].scores, criteria))]
  }

  /** Each candidate carries its own analysis, its position's id and the overall score of its criterion scores. */
  lemma {:induction false} CandidatesCarryTheirAnalyses(results: seq<AnalysisResult>, criteria: seq<Criterion>, now: nat, i: nat)
    requires i < |results|
    ensures var c := BuildCandidates(results, criteria, now)[i];
            && AnalysisOf(c) == results[i]
            && c.id == CandidateId(i, now)
            && c.overallScore == OverallScore(results[i].scores, criteria)
  {
    var n := |results| - 1;
    var prefix := BuildCandidates(results[..n], criteria, now);
    var last := MakeCandidate(results[n], CandidateId(n, now), OverallScore(results[n].scores, criteria));
    assert BuildCandidates(results, criteria, now) == prefix + [last];
    if i < n {
      CandidatesCarryTheirAnalyses(results[..n], criteria, now, i);
      assert BuildCandidates(results, criteria, now)[i] == prefix[i];
    } else {
      assert BuildCandidates(results, criteria, now)[i] == last;
    }
  }

  /** `results.map(...)`: one candidate per analysis, scored by the aggregation loop. */
  method ScoreAnalyses(results: seq<AnalysisResult>, criteria: seq<Criterion>, now: nat)
    returns (cs: seq<Candidate>)
    ensures cs == BuildCandidates(results, criteria, now)
  {
    cs := [];
    for i := 0 to |results|
      invariant cs == BuildCandidates(results[..i], criteria, now)
    {
      assert results[..i + 1][..i] == results[..i];
      var overall := Aggregate(results[i].scores, criteria);
      cs := cs + [MakeCandidate(results[i], CandidateId(i, now), overall)];
    }
    assert results[..|results|] == results;
  }

  /** Scores every analysis and sorts the candidates: lines 70-95 of the handler. */
  method RankCandidates(results: seq<AnalysisResult>, criteria: seq<Criterion>, now: nat)
    returns (ranked: seq<Candidate>)
    ensures ranked == SortByScore(BuildCandidates(results, criteria, now))
  {
    var cs := ScoreAnalyses(results, criteria, now);
    var a := new Candidate[|cs|](j requires 0 <= j < |cs| => cs[j]);
    assert a[..] == cs;
    SortCandidates(a);
    ranked := a[..];
  }

  /** The ranking is in descending order, holds exactly the analysed candidates, and is stable. */
  lemma RankingIsStableSort(results: seq<AnalysisResult>, criteria: seq<Criterion>, now: nat)
    ensures var cs := BuildCandidates(results, criteria, now);
            && Descending(SortByScore(cs))
            && multiset(SortByScore(cs)) == multiset(cs)
            && forall v :: WithScore(SortByScore(cs), v) == WithScore(cs, v)
  {
    SortByScoreIsStableSort(BuildCandidates(results, criteria, now));
  }

  /** The state of the recruiter's screen. */
  class RecruiterState {
    var jobDescription: string
    var candidatesCv: string
    var criteria: seq<Criterion>
    var rankedCandidates: seq<Candidate>
    var isLoading: bool
    var error: Option<string>
    var currentStep: nat

    /** The screen as first shown. */
    constructor ()
      ensures jobDescription == "" && candidatesCv == "" && criteria == DefaultCriteria
      ensures rankedCandidates == [] && !isLoading && error == None && currentStep == 1
    {
      jobDescription, candidatesCv, criteria := "", "", DefaultCriteria;
      rankedCandidates, isLoading, error, currentStep := [], false, None, 1;
    }

    /** `addCriterion`: appends one unnamed criterion of weight 3. */
    method AddCriterion(now: nat)
      modifies this
      ensures criteria == old(criteria) + [NewCriterion(now)]
      ensures jobDescription == old(jobDescription) && candidatesCv == old(candidatesCv)
      ensures rankedCandidates == old(rankedCandidates) && error == old(error) && currentStep == old(currentStep)
      ensures isLoading == old(isLoading)
    {
      criteria := criteria + [NewCriterion(now)];
    }

    /** `updateCriterion`: sets one field of the criteria with the given id. */
    method UpdateCriterion(id: string, edit: CriterionEdit)
      modifies this
      ensures criteria == UpdateById(old(criteria), id, edit)
      ensures jobDescription == old(jobDescription) && candidatesCv == old(candidatesCv)
      ensures rankedCandidates == old(rankedCandidates) && error == old(error) && currentStep == old(currentStep)
      ensures isLoading == old(isLoading)
    {
      criteria := UpdateById(criteria, id, edit);
    }

    /** `removeCriterion`: drops the criteria with the given id. */
    method RemoveCriterion(id: string)
      modifies this
      ensures criteria == RemoveById(old(criteria), id)
      ensures jobDescription == old(jobDescription) && candidatesCv == old(candidatesCv)
      ensures rankedCandidates == old(rankedCandidates) && error == old(error) && currentStep == old(currentStep)
      ensures isLoading == old(isLoading)
    {
      criteria := RemoveById(criteria, id);
    }

    /** The job description text box: its `onChange` stores the typed text. */
    method SetJobDescription(text: string)
      modifies this
      ensures jobDescription == text
      ensures candidatesCv == old(candidatesCv) && criteria == old(criteria)
      ensures rankedCandidates == old(rankedCandidates) && error == old(error) && currentStep == old(currentStep)
      ensures isLoading == old(isLoading)
    {
      jobDescription := text;
    }

    /** The résumés text box: its `onChange` stores the typed text. */
    method SetCandidatesCv(text: string)
      modifies this
      ensures candidatesCv == text
      ensures jobDescription == old(jobDescription) && criteria == old(criteria)
      ensures rankedCandidates == old(rankedCandidates) && error == old(error) && currentStep == old(currentStep)
      ensures isLoading == old(isLoading)
    {
      candidatesCv := text;
    }

    /**
     * The "next" button of step 1: it moves to step 2, and is disabled
     * (a click does nothing) while the job description is blank.
     */
    method NextStep()
      modifies this
      ensures currentStep == if IsBlank(old(jobDescription)) then old(currentStep) else 2
      ensures jobDescription == old(jobDescription) && candidatesCv == old(candidatesCv) && criteria == old(criteria)
      ensures rankedCandidates == old(rankedCandidates) && error == old(error) && isLoading == old(isLoading)
    {
      if !IsBlank(jobDescription) {
        currentStep := 2;
      }
    }

    /** The "back" button of step 2: returns to step 1 keeping everything typed. */
    method BackStep()
      modifies this
      ensures currentStep == 1
      ensures jobDescription == old(jobDescription) && candidatesCv == old(candidatesCv) && criteria == old(criteria)
      ensures rankedCandidates == old(rankedCandidates) && error == old(error) && isLoading == old(isLoading)
    {
      currentStep := 1;
    }

    /** `resetState`: back to the first step with the default criteria and nothing analysed. */
    method ResetState()
      modifies this
      ensures jobDescription == "" && candidatesCv == "" && criteria == DefaultCriteria
      ensures rankedCandidates == [] && !isLoading && error == None && currentStep == 1
    {
      jobDescription, candidatesCv, criteria := "", "", DefaultCriteria;
      rankedCandidates, isLoading, error, currentStep := [], false, None, 1;
    }

    /**
     * `handleAnalyze`: does nothing unless the guard holds; otherwise moves
     * to step 3 and either ranks every CV's candidate or, when any analysis
     * fails, reports the failure with no candidates at all.
     */
    method HandleAnalyze(analyze: (string, string, seq<Criterion>) -> Option<AnalysisResult>, now: nat)
      modifies this
      ensures !CanAnalyze(old(jobDescription), old(candidatesCv), old(criteria)) ==>
                && jobDescription == old(jobDescription) && candidatesCv == old(candidatesCv)
                && criteria == old(criteria) && rankedCandidates == old(rankedCandidates)
                && isLoading == old(isLoading) && error == old(error) && currentStep == old(currentStep)
      ensures CanAnalyze(old(jobDescription), old(candidatesCv), old(criteria)) ==>
                && jobDescription == old(jobDescription) && candidatesCv == old(candidatesCv)
                && criteria == old(criteria) && currentStep == 3 && !isLoading
                && match AnalyzeAll(analyze, jobDescription, CvPieces(candidatesCv), criteria)
                   case None => error == Some(TryAgain) && rankedCandidates == []
                   case Some(results) =>
                     error == None && rankedCandidates == SortByScore(BuildCandidates(results, criteria, now))
    {
      if !CanAnalyze(jobDescription, candidatesCv, criteria) {
        return;
      }
      currentStep := 3;
      isLoading := true;
      error := None;
      rankedCandidates := [];
      var cvs := CvPieces(candidatesCv);
      var outcome := AnalyzeAll(analyze, jobDescription, cvs, criteria);
      if outcome.None? {
        error := Some(TryAgain);
      } else {
        rankedCandidates := RankCandidates(outcome.value, criteria, now);
      }
      isLoading := false;
    }
  }

  /** The worked example: weights 4, 4, 3 and scores 80, 60, 90 give 830/11. */
  lemma DefaultCriteriaExample()
    ensures OverallScore([
      CriterionScore("Technical Skills", 80, ""),
      CriterionScore("Relevant Experience", 60, ""),
      CriterionScore("Communication Skills", 90, "")], DefaultCriteria) == 830.0 / 11.0
  {
    var scores := [
      CriterionScore("Technical Skills", 80, ""),
      CriterionScore("Relevant Experience", 60, ""),
      CriterionScore("Communication Skills", 90, "")];
    assert FirstNamed(DefaultCriteria, "Technical Skills") == Some(0);
    assert FirstNamed(DefaultCriteria, "Relevant Experience") == Some(1);
    assert FirstNamed(DefaultCriteria, "Communication Skills") == Some(2);
    assert scores[..2][..1] == scores[..1];
    assert scores[..1][..0] == [];
    assert TotalScore(scores[..1], DefaultCriteria) == 320;
    assert TotalScore(scores[..2], DefaultCriteria) == 560;
    assert TotalWeight(scores, DefaultCriteria) == 11;
    assert TotalScore(scores, DefaultCriteria) == 830;
  }

  /** Two entries for the same criterion both count: 80 and 60 on one weight-4 criterion give 70. */
  lemma DuplicateEntriesBothCount()
    ensures OverallScore([
      CriterionScore("Technical Skills", 80, ""),
      CriterionScore("Technical Skills", 60, "")], DefaultCriteria) == 70.0
  {
    var scores := [CriterionScore("Technical Skills", 80, ""), CriterionScore("Technical Skills", 60, "")];
    assert FirstNamed(DefaultCriteria, "Technical Skills") == Some(0);
    assert scores[..1][..0] == [];
    assert TotalWeight(scores, DefaultCriteria) == 8;
    assert TotalScore(scores, DefaultCriteria) == 560;
  }
}
