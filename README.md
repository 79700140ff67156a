# Scoring core of the vaga-ja recruiting assistant

This project models the client-side scoring and state logic of the vaga-ja
recruiting web application. The logic is lifted out of its React components:

- **Candidate ranking** (`RecruiterView`): the recruiter edits weighted
  criteria and pastes résumés separated by `---`. Each résumé is analysed
  by an external AI collaborator. Each candidate's overall score is then
  the weighted average of their per-criterion scores, counting only the
  entries whose criterion name matches an active criterion. The candidates
  are sorted by overall score, highest first.
- **DISC forced-choice test** (`BehavioralTest` DISC part): the candidate
  picks one profile as "most like me" and one as "least like me" per
  question. Each tally is the "most" picks minus the "least" picks. The
  bars are scaled by the largest absolute tally.
- **Situational-judgement test** (`BehavioralTest` SJT part): every chosen
  option awards points per competency. The points are added up competency
  by competency.
- **Big Five test** (`PersonalityTest`): Likert answers from 1 to 5 are
  summed per dimension O, C, E, A, N. An unanswered question counts as 3.
- **Big Five results** (`BigFiveResults`): each dimension's card shows the
  score, a maximum, a percentage bar and an interpretation band.
- **Pipeline builder** (`PipelineBuilder`): stages have an enabled switch
  and a weight. The weights of enabled stages are summed, and the summary
  warns when the total is not 100%.
- **Candidate card colours** (`CandidateCard`): scores fall into three
  colour bands, at 60 and at 80.
- **Workflow document** (`WorkflowView`): load, edit, cancel and save of a
  markdown document.

Pure logic is written as functions with lemmas. A component whose state is
changed by its handlers becomes a class: the state hooks are its fields
and the handlers are its methods. Loops in the source are methods with
loop invariants, each proved against a specification function:

- the aggregation `forEach`;
- the in-place `sort`;
- the `map` that builds the candidates;
- the DISC, SJT and Big Five `handleFinish` loops.

A JavaScript object used as a dictionary is a sequence of key/value
entries in insertion order (module `Dict`). For keys that are not array
indices, this is the order in which `Object.keys`, `Object.values` and
`Object.entries` visit the entries.

In these places the model follows the code:

- An unanswered Big Five question counts as 3, the neutral answer
  (`PersonalityTest.tsx:52`). It is not skipped.
- The Big Five interpretation uses the absolute thresholds 80 and 40
  (`BigFiveResults.tsx:15-16`). The thresholds are not scaled to the
  dimension's maximum.
- The SJT result starts as an empty object and only gains the
  competencies that some chosen option names (`BehavioralTest.tsx:211`).
- The SJT bar maximum is the larger of 10 and the largest total
  (`BehavioralTest.tsx:162`). It is not the number of scenarios times 5.
- The Big Five results screen divides every dimension by five times the
  number of *Openness* questions (`BigFiveResults.tsx:20`). The model
  keeps that as written and also gives the per-dimension maximum (see
  Findings).

## Model

| member | source | states |
|---|---|---|
| Ranking.FirstNamed | components/RecruiterView.tsx:75 | the index of the first criterion with exactly that name; None exactly when no criterion has the name |
| Ranking.FindCriterion | components/RecruiterView.tsx:75 | `find` by name: None exactly when no criterion carries the name, otherwise a criterion of the list with that name |
| Ranking.TotalWeight | components/RecruiterView.tsx:74-80 | the summed weight is never negative, and it is zero exactly when no score entry matches a criterion |
| Ranking.OverallScore | components/RecruiterView.tsx:82 | the overall score always lies in [0, 100]; it is 0 when no entry matches a criterion (the division guard) |
| Ranking.Aggregate | components/RecruiterView.tsx:71-82 | the accumulation loop computes exactly the weighted average the specification function defines |
| Ranking.TotalScoreBounds | components/RecruiterView.tsx:74-80 | when every matched score lies in [lo, hi], the weighted sum lies between lo and hi times the total weight |
| Ranking.OverallWithinMatchedScores | components/RecruiterView.tsx:74-82 | when some entry matches, the overall score lies between the lowest and highest matched scores |
| Ranking.TotalsAppend | components/RecruiterView.tsx:74-80 | both sums split over a concatenation of score lists, so the result does not depend on batching |
| Ranking.UnmatchedEntryIgnored | components/RecruiterView.tsx:76 | removing an entry that names no criterion, wherever it stands, leaves the overall score unchanged |
| Ranking.InsertPermutes | components/RecruiterView.tsx:95 | one insertion step adds exactly the inserted candidate to the multiset |
| Ranking.InsertDescending | components/RecruiterView.tsx:95 | inserting into a run sorted by descending score keeps it sorted |
| Ranking.InsertWithScore | components/RecruiterView.tsx:95 | insertion keeps the relative order of candidates with equal scores |
| Ranking.SortByScoreIsStableSort | components/RecruiterView.tsx:95 | the sort's result is in descending score order, is a permutation of the input, and keeps equal-score candidates in their original order |
| Ranking.InsertAt | components/RecruiterView.tsx:95 | the insertion point is just after the candidates scored strictly above the inserted one |
| Ranking.InsertInto | components/RecruiterView.tsx:95 | the in-place shift moves `a[i]` into the sorted tail and leaves the prefix untouched |
| Ranking.SortCandidates | components/RecruiterView.tsx:95 | the in-place array sort leaves exactly the stable descending order of its original contents |
| RecruiterView.NewCriterion | components/RecruiterView.tsx:25-31 | a new criterion has an empty name and weight 3 |
| RecruiterView.UpdateById | components/RecruiterView.tsx:34-36 | the criteria with the given id get the one edited field; every other criterion, and every id, is unchanged |
| RecruiterView.RemoveByIdMembers | components/RecruiterView.tsx:38-40 | after removal, a criterion is present exactly when it was present before and has a different id |
| RecruiterView.RemoveAbsentId | components/RecruiterView.tsx:38-40 | removing an id that no criterion carries changes nothing |
| RecruiterView.RemoveByIdAppend | components/RecruiterView.tsx:38-40 | removal distributes over concatenation, so the kept criteria keep their order |
| RecruiterView.RemoveUndoesAdd | components/RecruiterView.tsx:25-40 | removing a freshly added criterion by its id gives back the list it was added to |
| RecruiterView.CanAnalyze | components/RecruiterView.tsx:57 | the guard lets nothing empty through: an empty job description, an empty résumé text or an unnamed criterion stops the analysis (blank text in general, and the effect on the default and freshly added criteria, are the two lemmas below) |
| RecruiterView.DefaultCriteriaPassGuard | components/RecruiterView.tsx:15-19 | with the default criteria, the guard passes exactly when both texts are non-blank |
| RecruiterView.NewCriterionBlocksAnalysis | components/RecruiterView.tsx:25-31 | after adding a criterion, analysis is blocked until the new criterion is named |
| RecruiterView.RemoveById | components/RecruiterView.tsx:38-40 | the filter never lengthens the list; membership, order and the undo of an add are the lemmas below |
| RecruiterView.CvPieces | components/RecruiterView.tsx:65 | the résumés are the non-blank pieces of the split, in order and with their multiplicity; none is blank or contains `---` |
| RecruiterView.SeparatorOnlyTextYieldsNoCandidates | components/RecruiterView.tsx:57-65 | the text `---` passes the guard yet produces no résumé at all |
| RecruiterView.AnalyzeAll | components/RecruiterView.tsx:66-68 | the batch fails exactly when some résumé's analysis fails; otherwise it holds one analysis per résumé, in order |
| RecruiterView.BuildCandidates | components/RecruiterView.tsx:70-93 | one candidate per analysis, in the order of the analyses |
| RecruiterView.CandidatesCarryTheirAnalyses | components/RecruiterView.tsx:70-93 | the i-th candidate carries the i-th analysis, the id `cand-i-now`, and the overall score of that analysis's entries |
| RecruiterView.ScoreAnalyses | components/RecruiterView.tsx:70-93 | the loop builds exactly one scored candidate per analysis, in order |
| RecruiterView.RankCandidates | components/RecruiterView.tsx:70-96 | the ranked list is the stable descending sort of the scored candidates |
| RecruiterView.RankingIsStableSort | components/RecruiterView.tsx:70-96 | the ranking is descending, holds exactly the analysed candidates, and keeps ties in résumé order |
| RecruiterView.RecruiterState.constructor | components/RecruiterView.tsx:13-23 | the screen starts at step 1 with the three default criteria and nothing analysed |
| RecruiterView.RecruiterState.AddCriterion | components/RecruiterView.tsx:25-32 | one new criterion is appended; nothing else changes |
| RecruiterView.RecruiterState.UpdateCriterion | components/RecruiterView.tsx:34-36 | the criteria become the updated list; nothing else changes |
| RecruiterView.RecruiterState.RemoveCriterion | components/RecruiterView.tsx:38-40 | the criteria become the filtered list; nothing else changes |
| RecruiterView.RecruiterState.SetJobDescription | components/RecruiterView.tsx:111-118 | the job description becomes the typed text; nothing else changes |
| RecruiterView.RecruiterState.SetCandidatesCv | components/RecruiterView.tsx:186-193 | the résumés text becomes the typed text; nothing else changes |
| RecruiterView.RecruiterState.NextStep | components/RecruiterView.tsx:122-125 | moves to step 2 only when the job description is not blank (the button is disabled otherwise); nothing else changes |
| RecruiterView.RecruiterState.BackStep | components/RecruiterView.tsx:197-199 | returns to step 1 keeping the texts, criteria and results |
| RecruiterView.RecruiterState.ResetState | components/RecruiterView.tsx:42-54 | every field returns to its initial value, including the default criteria |
| RecruiterView.RecruiterState.HandleAnalyze | components/RecruiterView.tsx:56-103 | a failed guard changes nothing; otherwise the screen moves to step 3 and loading ends with either the ranked candidates and no error, or no candidates and the try-again error |
| RecruiterView.DefaultCriteriaExample | components/RecruiterView.tsx:15-19 | the default weights 4, 4, 3 with scores 80, 60, 90 give 830/11 |
| RecruiterView.DuplicateEntriesBothCount | components/RecruiterView.tsx:74-80 | two entries naming the same criterion both count: 80 and 60 give 70 |
| Disc.Select | components/BehavioralTest.tsx:55-67 | the chosen slot toggles the profile; a profile moved into one slot leaves the other slot; the two slots never hold the same profile |
| Disc.SelectTwice | components/BehavioralTest.tsx:55-67 | selecting twice restores the answer exactly when the slot was empty or held that profile and the other slot did not |
| Disc.TallyCounts | components/BehavioralTest.tsx:73-80 | each profile's tally is its number of "most" picks minus its number of "least" picks |
| Disc.TallyBounds | components/BehavioralTest.tsx:73-80 | with N answers every tally lies in [-N, N] |
| Disc.TallySum | components/BehavioralTest.tsx:73-80 | the four tallies add up to all "most" picks minus all "least" picks |
| Disc.TallyAnswers | components/BehavioralTest.tsx:74-78 | the `forEach` over the answers computes exactly the tally |
| Disc.DisplayMax | components/BehavioralTest.tsx:12-13 | the bar scale is at least 1, bounds every absolute tally, and is 1 or some profile's absolute tally |
| Disc.BarRatio | components/BehavioralTest.tsx:29 | each DISC bar fills between 0 and 1 of its track |
| Disc.DiscTest.constructor | components/BehavioralTest.tsx:48-50 | the test starts at the first question with no answers and no results |
| Disc.DiscTest.HandleSelect | components/BehavioralTest.tsx:55-68 | only the current question's answer changes, to its `Select` update, and the slots stay distinct |
| Disc.DiscTest.HandleNext | components/BehavioralTest.tsx:70 | the index advances unless it is on the last question; answers are kept |
| Disc.DiscTest.HandlePrevious | components/BehavioralTest.tsx:71 | the index goes back unless it is on the first question; answers are kept |
| Disc.DiscTest.HandleFinish | components/BehavioralTest.tsx:73-80 | the results are the tally of every recorded answer |
| Disc.DiscTest.HandleReset | components/BehavioralTest.tsx:82-86 | no answers, the first question, no results |
| Disc.ThreeQuestionExample | components/BehavioralTest.tsx:73-80 | most D, I, D and least S, C, I give D = 2, I = 0, S = -1, C = -1 |
| Sjt.FindOption | components/BehavioralTest.tsx:215 | None exactly when no option has the id; otherwise the first option of the scenario with that id |
| Sjt.Chosen | components/BehavioralTest.tsx:213-214 | a scenario counts as answered exactly when its recorded option id is a non-empty string |
| Sjt.AddPointsGet | components/BehavioralTest.tsx:217-219 | one option's table adds its points to each competency it names, from 0 when the competency was absent, and leaves every other competency alone |
| Sjt.SjtScoresGet | components/BehavioralTest.tsx:210-223 | a competency is in the result exactly when some chosen option names it, and its value is the sum of its points over all chosen options |
| Sjt.SjtScoresUniqueKeys | components/BehavioralTest.tsx:210-223 | each competency appears once in the result |
| Sjt.UnofferedOptionIgnored | components/BehavioralTest.tsx:213-216 | choosing an option id the scenario does not offer gives the same totals as choosing nothing |
| Sjt.ScoreSjt | components/BehavioralTest.tsx:211-222 | the nested loops compute exactly the summed competency points |
| Sjt.AddAll | components/BehavioralTest.tsx:217-219 | the inner loop adds exactly the option's table |
| Sjt.DisplayMax | components/BehavioralTest.tsx:162 | the bar scale is at least 10, bounds every total, and is 10 or some total |
| Sjt.SjtTest.constructor | components/BehavioralTest.tsx:196-198 | the test starts at the first scenario with no answers and no results |
| Sjt.SjtTest.HandleSelectOption | components/BehavioralTest.tsx:203-205 | the current scenario's answer becomes the option id, replacing any earlier choice |
| Sjt.SjtTest.HandleNext | components/BehavioralTest.tsx:207 | the index advances unless it is on the last scenario |
| Sjt.SjtTest.HandlePrevious | components/BehavioralTest.tsx:208 | the index goes back unless it is on the first scenario |
| Sjt.SjtTest.HandleFinish | components/BehavioralTest.tsx:210-224 | the results are the summed points of the chosen options |
| Sjt.SjtTest.HandleReset | components/BehavioralTest.tsx:226-230 | no answers, the first scenario, no results |
| Personality.AnswerOrNeutral | components/PersonalityTest.tsx:52 | a recorded answer is used as is; an unanswered question counts as 3 |
| Personality.BigFiveScoresGet | components/PersonalityTest.tsx:46-58 | the result has exactly the five dimensions, and each holds the sum of its questions' answers, unanswered ones counting 3 |
| Personality.AddAnswerGet | components/PersonalityTest.tsx:52-55 | one question adds its answer to its dimension when that is one of the five, and changes nothing else |
| Personality.BigFiveScoresKeys | components/PersonalityTest.tsx:47 | the result's keys stay O, C, E, A, N, in that order |
| Personality.DimensionTotalBounds | components/PersonalityTest.tsx:48-56 | a dimension with k questions totals between k and 5k |
| Personality.ResultsFitTheirBars | components/PersonalityTest.tsx:46-58 | with the dimension's own maximum, every dimension that has questions fills between 20% and 100% of its bar |
| Personality.ScoreBigFive | components/PersonalityTest.tsx:47-56 | the `forEach` computes exactly the per-dimension sums |
| Personality.PersonalityTest.constructor | components/PersonalityTest.tsx:17-19 | the test starts at the first question with no answers and no results |
| Personality.PersonalityTest.HandleAnswer | components/PersonalityTest.tsx:24-32 | the question's answer is recorded or overwritten, every other answer is kept, and the index advances unless it is on the last question |
| Personality.PersonalityTest.HandleNext | components/PersonalityTest.tsx:34-38 | the index advances unless it is on the last question |
| Personality.PersonalityTest.HandlePrevious | components/PersonalityTest.tsx:40-44 | the index goes back unless it is on the first question |
| Personality.PersonalityTest.HandleFinish | components/PersonalityTest.tsx:46-58 | the results are the five dimension totals of the current answers |
| Personality.PersonalityTest.HandleReset | components/PersonalityTest.tsx:60-64 | no answers, the first question, no results |
| BigFiveResults.Interpretation | components/BigFiveResults.tsx:13-18 | high exactly above 80, low exactly below 40, moderate exactly in [40, 80] |
| BigFiveResults.InterpretationMonotone | components/BigFiveResults.tsx:13-18 | a higher score never gets a lower band |
| BigFiveResults.CountTagged | components/BigFiveResults.tsx:20 | the question count is at most the number of questions, and it is 0 exactly when no question has the tag |
| BigFiveResults.MaxScoreAsWritten | components/BigFiveResults.tsx:20 | the maximum as written: a multiple of 5, at most five per question, and 0 exactly when there is no Openness question |
| BigFiveResults.MaxScoreFor | components/BigFiveResults.tsx:20 | the corrected maximum: a multiple of 5, at most five per question, and 0 exactly when the dimension has no question |
| BigFiveResults.MaxScoresAgree | components/BigFiveResults.tsx:20 | the written maximum equals a dimension's own maximum exactly when the dimension has as many questions as Openness |
| BigFiveResults.DisplayedScore | components/BigFiveResults.tsx:29 | a dimension missing from the results shows 0, and a present one shows its stored value |
| BigFiveResults.Percentage | components/BigFiveResults.tsx:30 | undefined exactly when the maximum is 0; otherwise the percentage times the maximum is 100 times the score |
| BigFiveResults.PercentageBounds | components/BigFiveResults.tsx:30 | a score between 0 and its maximum gives a percentage between 0 and 100 |
| BigFiveResults.RowAsWritten | components/BigFiveResults.tsx:20-31 | the card as the screen computes it: the displayed score, its band, the Openness-based maximum, and the percentage of that maximum |
| BigFiveResults.RowFor | components/BigFiveResults.tsx:28-31 | the corrected card: the dimension's own maximum, and the percentage of it, which is undefined exactly when the dimension has no questions |
| BigFiveResults.RowsAsWritten | components/BigFiveResults.tsx:28-31 | the screen's cards as written: one per declared dimension, in declaration order, each with the Openness-based maximum |
| BigFiveResults.Rows | components/BigFiveResults.tsx:28-31 | the corrected screen: one card per declared dimension, in declaration order, each with its own maximum |
| BigFiveResults.ComponentTestExample | components/BigFiveResults.test.tsx:9-51 | with the component test's data, the screen shows 8 of 10 for O and 5 of 10 for C, where C's own maximum is 5 |
| BigFiveResults.OpennessMaxOverflows | components/BigFiveResults.tsx:20 | one O question and two C questions with C = 10 fill C's bar to 200% as written, and to 100% with C's own maximum |
| Pipeline.ConfigureStages | components/PipelineBuilder.tsx:47-50 | one stage per described stage, in order; each is switched on exactly when it is mandatory or weighted |
| Pipeline.ToggleStage | components/PipelineBuilder.tsx:62-68 | the same stages in the same order; the switch of each stage with the id is flipped and every other stage is unchanged |
| Pipeline.SetWeight | components/PipelineBuilder.tsx:70-76 | the same stages in the same order; each stage with the id takes the new weight and every other stage is unchanged |
| Pipeline.ToggleTwice | components/PipelineBuilder.tsx:62-68 | toggling the same stage twice restores the list |
| Pipeline.SetWeightUndo | components/PipelineBuilder.tsx:70-76 | with unique stage ids, setting a weight and then the old weight back restores the list |
| Pipeline.Contribution | components/PipelineBuilder.tsx:79 | a stage adds a positive amount exactly when it is enabled and positively weighted, and never a negative one |
| Pipeline.TotalWeight | components/PipelineBuilder.tsx:78-80 | the total is never negative, and it is zero exactly when no stage contributes |
| Pipeline.TotalWeightUpdate | components/PipelineBuilder.tsx:78-80 | replacing one stage changes the total by the difference of the two contributions |
| Pipeline.ToggleChangesTotal | components/PipelineBuilder.tsx:62-80 | with unique stage ids, toggling a positively weighted stage adds or removes exactly its weight from the total |
| Pipeline.WarningAndBar | components/PipelineBuilder.tsx:149-159 | the warning is off only at exactly 100%, where the bar is full; above 100% it warns with a full bar; below, the bar shows the total |
| Pipeline.ToggleFromFullWarns | components/PipelineBuilder.tsx:62-80 | from a total of exactly 100%, switching a weighted stage on or off brings the warning back |
| Pipeline.BarWidth | components/PipelineBuilder.tsx:156 | the summary bar is capped at 100% and equals the total exactly when the total is at most 100% |
| Pipeline.ConfigureEnablesMandatory | components/PipelineBuilder.tsx:49 | every mandatory stage starts switched on |
| Pipeline.AllowedKeepsMandatoryEnabled | components/PipelineBuilder.tsx:108 | with unique stage ids, no action the screen allows can switch a mandatory stage off |
| Pipeline.ToggleHandlerIgnoresMandatory | components/PipelineBuilder.tsx:62-68 | the toggle handler on its own does switch a mandatory stage off; only the disabled checkbox prevents it |
| Pipeline.AllowedKeepsZeroWeight | components/PipelineBuilder.tsx:122-137 | with unique stage ids, a stage with weight 0 has no slider, so no allowed action changes its weight |
| Pipeline.ApplyKeepsIds | components/PipelineBuilder.tsx:62-76 | every action keeps the stages and their ids in place |
| Pipeline.OverweightExample | components/PipelineBuilder.tsx:149-159 | weights 50%, 30% and 25% total 105%: the warning shows and the bar is full |
| Pipeline.PipelineBuilder.constructor | components/PipelineBuilder.tsx:34-36 | the screen starts loading with no stages and no error |
| Pipeline.PipelineBuilder.Load | components/PipelineBuilder.tsx:41-57 | loading ends; a read file gives the configured stages, with every mandatory stage on; a failure sets the could-not-load error |
| Pipeline.PipelineBuilder.HandleToggleStage | components/PipelineBuilder.tsx:62-68 | the stages become the toggled list; nothing else changes |
| Pipeline.PipelineBuilder.HandleWeightChange | components/PipelineBuilder.tsx:70-76 | the slider position becomes the stage's weight; nothing else changes |
| CandidateCard.BandOf | components/CandidateCard.tsx:11-20 | emerald exactly from 80, amber exactly in [60, 80), red exactly below 60 |
| CandidateCard.ScoreColor | components/CandidateCard.tsx:11-15 | each bar class is chosen exactly on its score range |
| CandidateCard.ScoreTextColor | components/CandidateCard.tsx:16-20 | each text class is chosen exactly on its score range |
| CandidateCard.ColoursAgree | components/CandidateCard.tsx:11-20 | a score's bar and its number are always coloured from the same band |
| CandidateCard.BandMonotone | components/CandidateCard.tsx:11-20 | a higher score never gets a worse band |
| Workflow.WorkflowView.constructor | components/WorkflowView.tsx:6-10 | the view starts loading, not editing, with empty document and draft |
| Workflow.WorkflowView.Load | components/WorkflowView.tsx:12-34 | loading ends; a read document sets both the document and the draft; a failure sets the error and keeps both |
| Workflow.WorkflowView.Edit | components/WorkflowView.tsx:36-39 | the editor opens on the committed document |
| Workflow.WorkflowView.Type | components/WorkflowView.tsx:75-77 | the draft follows the editor and the document is untouched |
| Workflow.WorkflowView.Cancel | components/WorkflowView.tsx:41-43 | the editor closes and the document is unchanged |
| Workflow.WorkflowView.Save | components/WorkflowView.tsx:45-50 | the draft becomes the document and the editor closes |
| Workflow.EditThenSave | components/WorkflowView.tsx:36-50 | opening the editor and saving at once leaves the document unchanged |
| Workflow.CancelledDraftIsDiscarded | components/WorkflowView.tsx:36-43 | a cancelled draft is gone the next time the editor opens |
| Workflow.EditTypeSave | components/WorkflowView.tsx:36-50 | typing a text and saving makes it the document |
| Navigation.Next | components/BehavioralTest.tsx:70 | the index stays in range and advances exactly when a next question exists |
| Navigation.Previous | components/BehavioralTest.tsx:71 | the index never grows, and it stays put exactly at the first question |
| Navigation.NextPreviousInverse | components/BehavioralTest.tsx:70-71 | next then previous, or previous then next, come back to the same question |
| Types.MakeCandidate | components/RecruiterView.tsx:84-92 | the candidate record carries the analysis it was built from, its id and its overall score |
| Types.ParseTestType | types.ts:48 | a tag names a test type exactly when it is one of the three, and then that type's tag is the tag |
| Types.ParseTestTypeName | components/BehavioralTest.tsx:278-294 | each of the three test types is found back from its tag |
| Text.FindSeparator | components/RecruiterView.tsx:65 | finds the first occurrence of `---`, or reports that there is none |
| Text.Split | components/RecruiterView.tsx:65 | a split always has at least one piece; with `JoinSplit` it loses nothing |
| Text.JoinSplit | components/RecruiterView.tsx:65 | the pieces of the split, joined back with `---`, give the original text |
| Text.SplitPiecesHaveNoSeparator | components/RecruiterView.tsx:65 | no piece of the split contains the separator |
| Text.NonBlank | components/RecruiterView.tsx:65 | the filter keeps exactly the non-blank pieces, and is never longer than its input |
| Text.NonBlankAppend | components/RecruiterView.tsx:65 | the filter works piece by piece over a concatenation, so the kept pieces keep their order |
| Text.NonBlankMultiplicity | components/RecruiterView.tsx:65 | each non-blank piece is kept as many times as it occurs, and no blank piece is kept |
| Text.NonBlankKeepsAll | components/RecruiterView.tsx:65 | a list with no blank piece passes the filter unchanged |

## Left out

- Rendering, styling beyond the colour classes, and localisation: every translated message is its i18n key (`error.tryAgain`, `error.couldNotLoad`).
- The network is not modelled. `fetch` of the pipeline file and of the workflow document becomes a parameter of the load methods. The question files are fetched by the test selector wrapper (`BehavioralTest.tsx:308-331`), which is outside this model; the questions become a constructor argument of the test classes. The failure modes (HTTP status, JSON parse error, thrown value) collapse into "could not read".
- The AI collaborator (`analyzeCandidate`) is not modelled. It becomes the function parameter `analyze`, which returns `None` when an analysis fails. The language argument is dropped.
- Concurrency: `Promise.all` is modelled as all-or-nothing over the résumés, through `AnalyzeAll`. The order in which analyses complete does not matter to the result and is not modelled.
- `Date.now()` becomes the parameter `now`. Timestamp collisions between criterion ids are not modelled. The source calls `Date.now()` once per candidate while building the ids (`RecruiterView.tsx:85`); the model uses one `now` for the whole batch, so ids that differ only in the clock reading are not modelled.
- The 200 ms `setTimeout` in `handleAnswer` is modelled as an immediate step. Clicks that land during the delay, and the delayed callback's stale view of the index, are not modelled.
- Floating point: overall scores, percentages and bar ratios are exact reals. `toFixed`, NaN and Infinity are not modelled. A zero Big Five maximum is `None` where the screen would show `NaN%` (zero score) or `Infinity%` (positive score).
- Pipeline weights are integer percentages: the 0–100 slider in steps of 5 (`PipelineBuilder.tsx:131-135`). The division by 100, `* 100` and `Math.round` then cancel out. Fractional weights in the pipeline file are not modelled.
- Types.ScoreValue: a criterion score is an integer from 0 to 100. The AI response schema types the score as a plain number (`services/geminiService.ts:16-19`), so fractional scores such as 72.5 and scores outside 0–100 are not modelled.
- Dictionary order for integer-like keys: JavaScript enumerates keys such as "1" and "2" first, in ascending numeric order, and the model keeps insertion order. This affects the order of the DISC answers handed to the tally, which does not change the tally, and the order of SJT competencies in the result.
- DISC profile keys other than D, I, S and C cannot occur in the model; in the source, `scores[x]++` on another key gives NaN.
- Object keys that JavaScript objects inherit from `Object.prototype` are ignored. For example, `"toString"` would pass the `!== undefined` check in the Big Five scoring.
- The browser's `Array.prototype.sort` is modelled as a stable insertion sort. Modern engines guarantee a stable sort, so the resulting order is the same.
- The `workExperience || []`, `education || []` and `skills || []` defaults are not modelled: `AnalysisResult` in `types.ts:39-45` always carries the three lists.
- RemoveById: its own contract states only that the list does not grow. Membership, order and the round trip with `addCriterion` are proved in `RemoveByIdMembers`, `RemoveByIdAppend` and `RemoveUndoesAdd`.
- The test selector wrapper (`BehavioralTest.tsx:296` onwards), the loading spinner, the step indicator, the candidate view and the culture-mapping form are outside this model.

## Findings

| source | as written | input that shows it | evidently intended | confidence | as-written member | corrected member |
|---|---|---|---|---|---|---|
| components/BigFiveResults.tsx:20 | the maximum of every dimension is five times the number of Openness (`'O'`) questions | questions O, C, C with the C answers totalling 10: the C bar shows 200%; the component test's data (O, O, C) shows C as 5 of 10 | each dimension's maximum is five times the number of its own questions | not executed | BigFiveResults.OpennessMaxOverflows | BigFiveResults.RowFor |
