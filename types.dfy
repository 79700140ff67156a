/**
 * The records the recruiting assistant passes between its screens: criteria
 * and the AI's per-criterion scores, candidates, and the question data of
 * the three behavioural tests.
 */
module Types {
  import opened Wrappers
  import opened Dict

  /** A criterion's importance: the weight selector offers 1 to 5. */
  type Weight = w: int | 1 <= w <= 5 witness 3

  /** A per-criterion score from the analysis: 0 to 100. */
  type ScoreValue = s: int | 0 <= s <= 100 witness 0

  datatype Criterion = Criterion(id: string, name: string, weight: Weight)

  datatype CriterionScore = CriterionScore(criterionName: string, score: ScoreValue, justification: string)

  datatype WorkExperience = WorkExperience(jobTitle: string, company: string, dates: string, description: string)

  datatype Education = Education(degree: string, institution: string, dates: string)

  /** One candidate's analysis as the AI collaborator returns it. */
  datatype AnalysisResult = AnalysisResult(
    candidateName: string,
    scores: seq<CriterionScore>,
    workExperience: seq<WorkExperience>,
    education: seq<Education>,
    skills: seq<string>)

  /** A ranked candidate: an analysis plus an id and the weighted overall score. */
  datatype Candidate = Candidate(
    id: string,
    name: string,
    overallScore: real,
    scores: seq<CriterionScore>,
    workExperience: seq<WorkExperience>,
    education: seq<Education>,
    skills: seq<string>)

  /** The analysis a candidate was built from. */
  function AnalysisOf(c: Candidate): AnalysisResult {
    AnalysisResult(c.name, c.scores, c.workExperience, c.education, c.skills)
  }

  /** The candidate record built from an analysis, an id and an overall score. */
  function MakeCandidate(result: AnalysisResult, id: string, overallScore: real): (c: Candidate)
    ensures AnalysisOf(c) == result
    ensures c.id == id && c.overallScore == overallScore
  {
    Candidate(id, result.candidateName, overallScore, result.scores,
              result.workExperience, result.education, result.skills)
  }

  datatype TestType = BigFive | Disc | Sjt

  /** The string tag of a test type. */
  function TestTypeName(t: TestType): string {
    match t
    case BigFive => "big-five"
    case Disc => "disc"
    case Sjt => "sjt"
  }

  /** The test type a tag names, if any. */
  function ParseTestType(name: string): (r: Option<TestType>)
    ensures r.Some? ==> TestTypeName(r.value) == name
    ensures r.None? <==> name !in {"big-five", "disc", "sjt"}
  {
    if name == "big-five" then Some(BigFive)
    else if name == "disc" then Some(Disc)
    else if name == "sjt" then Some(Sjt)
    else None
  }

  /** Every test type's tag names that type back: there are exactly three. */
  lemma ParseTestTypeName(t: TestType)
    ensures ParseTestType(TestTypeName(t)) == Some(t)
  {
  }

  datatype BigFiveQuestion = BigFiveQuestion(id: string, dimensao: string, texto: string)

  /** The four DISC profiles. */
  datatype Profile = D | I | S | C

  /** A forced-choice DISC question: a word per profile. */
  datatype DiscQuestion = DiscQuestion(id: string, opcoes: map<Profile, string>)

  /** A situational-judgement answer option and the points it awards per competency. */
  datatype SjtOption = SjtOption(id: string, texto: string, pontos: Dict<int>)

  datatype SjtScenario = SjtScenario(id: string, texto: string, opcoes: seq<SjtOption>)
}
