# Endometriosis symptom questionnaire — a verified model of its core

The application is a three-screen questionnaire.
- The landing screen leads to a symptom form.
- The form collects six answers: pain severity 0..10, days of pain per cycle 0..14, and four yes/no symptoms.
- The result screen shows a heuristic risk level and a bar chart of the symptoms that contributed, largest first.

This project models the behaviour behind those screens in Dafny and proves what it promises. It has five modules:

- `SymptomModel` (`symptom_model.dfy`) holds the answer record, its default and the risk classifier. The classifier is a weighted sum with thresholds 15 and 8. It is written both as a specification function and as a method that accumulates the score the way the page does.
- `SymptomInput` (`symptom_input.dfy`) is the form's working copy of the answers.
  - It is a class whose widget callbacks each replace the record with a copy that differs in one answer.
  - The edits are specified by `Apply`, and their algebra is proved: only the target changes, edits of different answers commute, the last edit wins, and rewriting a value changes nothing. Slider values also keep the answers in range.
- `RiskResult` (`risk_result.dfy`) covers the result screen.
  - The level label is a total lookup.
  - The five-entry contribution list is built from the answers and then sorted by descending value with a stable sort. The model proves that the sorted list is a descending permutation, that each value class keeps its order, and that this pins the list down uniquely. It also proves what each entry says.
- `ContributorChart` (`contributor_chart.dfy`) is the bar chart. It finds the maximum, computes a rounded percentage per bar and applies the three-way colour rule. The model proves the rounding, the bounds and monotonicity.
- `Controller` (`controller.dfy`) is the page.
  - It is a class with the current screen and the stored answers, plus one method per handler. Each method is tied to a step function on states.
  - The model also proves lemmas about single steps and about whole histories.
  - It includes a method for one visit to the form: open it on the stored answers, make edits, then submit or go back.

Two numeric details are modelled exactly instead of in IEEE doubles:
- The classifier's decimal weights (1.5 and 0.8) are modelled as exact rationals (`Score`) and decided in integer tenths (`ScoreTenths`, thresholds 150 and 80).
- `Math.round(v / max * 100)` is modelled as half-up integer rounding `(200 v + max) div (2 max)`. `PercentageRoundsRatio` proves that this is rounding of the exact quotient.

Both agree with double arithmetic on every input the widgets can produce. A double-rounding error is at most about 1e-14 and can only matter when the exact value sits on a threshold or on a half.
- `ThresholdHitNeedsRoundDuration` shows that a score lands exactly on 8 or 15 only with a counted duration of 0 or 5 days. The products involved (0 × 0.8, 5 × 0.8 and severity × 1.5) are exact in doubles, so the comparisons agree.
- In the chart the maximum is 10, 40, 50, 60, 80 or 100, or a multiple of 10 from the severity. The only exact halves are v/80 with v ∈ {10, 30, 50, 70}, and those are exact binary fractions.

The contribution values follow the code. The pain entry is severity × 10, so it is 0 at severity 0, and every value lies in [0, 100]. This is wider than a lower bound of 10, which holds only for the four yes/no entries (`RiskResult.ContributionEntries`).

## Model

| member | source | states |
|---|---|---|
| SymptomModel.Default | src/pages/Index.tsx:20-27 | the starting answers are in range and every yes/no symptom is off |
| SymptomModel.ScoreTenths | src/pages/Index.tsx:30-42 | the integer score is exactly ten times the weighted decimal score, and lies in [0, 316] for in-range answers |
| SymptomModel.Classify | src/pages/Index.tsx:29-47 | level is high iff the score is at least 15, medium iff it is in [8, 15), low iff it is below 8 |
| SymptomModel.CalculateRiskLevel | src/pages/Index.tsx:29-47 | the accumulating computation with early returns yields the classifier's level, i.e. rank 2/1/0 by the two thresholds |
| SymptomModel.ClassifyMonotone | src/pages/Index.tsx:33-45 | raising severity or duration or switching a symptom on never lowers the score or the level |
| SymptomModel.DurationCapped | src/pages/Index.tsx:36 | any duration of 7 days or more scores and classifies as exactly 7 days |
| SymptomModel.DefaultIsLow | src/pages/Index.tsx:20-46 | the default answers score 6.1 and classify as low |
| SymptomModel.ClassifyExamples | src/pages/Index.tsx:29-47 | worked cases: 23.0 high, 13.9 medium, exactly 15.0 high, exactly 8.0 medium, 7.9 low |
| SymptomModel.ThresholdHitNeedsRoundDuration | src/pages/Index.tsx:33-45 | an in-range score equal to a threshold needs a counted duration of 0 or 5 days |
| ContributorChart.MaxValue | src/components/RiskContributorChart.tsx:12 | the maximum is at least every value and equal to one of them |
| ContributorChart.Percentage | src/components/RiskContributorChart.tsx:17 | the width p satisfies p - 1/2 <= 100 v / max < p + 1/2 in integers |
| ContributorChart.PercentageRoundsRatio | src/components/RiskContributorChart.tsx:17 | the width is the exact percentage rounded to nearest, halves up |
| ContributorChart.PercentageBounds | src/components/RiskContributorChart.tsx:17 | a value between 0 and the maximum gets a width in [0, 100] |
| ContributorChart.PercentageOfMax | src/components/RiskContributorChart.tsx:12-17 | the maximum itself gets width 100 |
| ContributorChart.PercentageMonotone | src/components/RiskContributorChart.tsx:17 | a larger value never gets a smaller width |
| ContributorChart.BarsFrom | src/components/RiskContributorChart.tsx:16-34 | one bar per contribution in order, scaled against the given maximum, coloured by its absolute position |
| ContributorChart.Bars | src/components/RiskContributorChart.tsx:11-34 | one bar per contribution in input order, same key, width rounded against the list maximum, accent if inactive, secondary if active and first, primary otherwise |
| ContributorChart.BarsWidths | src/components/RiskContributorChart.tsx:12-17 | for non-negative values every width is in [0, 100] and every contribution at the maximum is full |
| ContributorChart.BarsMonotone | src/components/RiskContributorChart.tsx:17 | bar widths follow the order of the values |
| RiskResult.LabelTextInjective | src/components/screens/RiskResultScreen.tsx:40-65 | the five labels (the bars' keys) are pairwise different |
| RiskResult.RiskLabelsDistinct | src/components/screens/RiskResultScreen.tsx:12-37 | the lookup gives each of the three levels its own badge label |
| RiskResult.Unsorted | src/components/screens/RiskResultScreen.tsx:40-65 | the list has five entries and each is active exactly when its symptom is present |
| RiskResult.InsertPermutes | src/components/screens/RiskResultScreen.tsx:66 | inserting adds exactly the one entry |
| RiskResult.InsertDescending | src/components/screens/RiskResultScreen.tsx:66 | inserting into a descending list keeps it descending |
| RiskResult.InsertStable | src/components/screens/RiskResultScreen.tsx:66 | the inserted entry goes before the entries of equal value; other value classes are untouched |
| RiskResult.SortProperties | src/components/screens/RiskResultScreen.tsx:66 | the sort is a permutation, descending, and keeps every value class in its original order |
| RiskResult.StableDescendingUnique | src/components/screens/RiskResultScreen.tsx:66 | two descending lists with the same value classes in the same orders are equal, so any stable descending sort gives this list |
| RiskResult.ContributionsRanked | src/components/screens/RiskResultScreen.tsx:40-66 | the chart list has five entries, is a descending stable permutation of the written list, and lists every symptom |
| RiskResult.ContributionEntries | src/components/screens/RiskResultScreen.tsx:40-65 | each entry is active iff its symptom is present; yes/no entries are at least 10 and active iff above 10; pain is 10 × severity; values in [0, 100] for in-range answers |
| RiskResult.MaxValueOfContributions | src/components/screens/RiskResultScreen.tsx:40-66 | the chart's maximum is at least 10 and is the first entry's value |
| RiskResult.ResultChart | src/components/RiskContributorChart.tsx:12-17 | on the result screen the chart draws five bars, the first one full, all widths in [0, 100] |
| SymptomInput.Apply | src/components/screens/SymptomInputScreen.tsx:52-121 | an edit sets its target answer to its value and leaves the other five answers unchanged |
| SymptomInput.RewriteIsIdentity | src/components/screens/SymptomInputScreen.tsx:52-121 | writing an answer's current value leaves the record unchanged |
| SymptomInput.ApplyCommutes | src/components/screens/SymptomInputScreen.tsx:52-121 | edits of different answers commute |
| SymptomInput.LastEditWins | src/components/screens/SymptomInputScreen.tsx:52-121 | of two edits of one answer only the later is visible |
| SymptomInput.ApplyKeepsRange | src/components/screens/SymptomInputScreen.tsx:50-77 | slider values within 0..10 and 0..14 keep the answers in range |
| SymptomInput.ApplyAllUntouched | src/components/screens/SymptomInputScreen.tsx:52-121 | an answer no edit of a series targets keeps its value |
| SymptomInput.ApplyAllKeepsRange | src/components/screens/SymptomInputScreen.tsx:50-77 | any series of widget edits keeps the answers in range |
| SymptomInput.SymptomForm.constructor | src/components/screens/SymptomInputScreen.tsx:15 | the working copy starts equal to the answers passed in |
| SymptomInput.SymptomForm.MoveSeveritySlider | src/components/screens/SymptomInputScreen.tsx:50-57 | severity becomes the slider value, the other answers stay, range kept |
| SymptomInput.SymptomForm.MoveDurationSlider | src/components/screens/SymptomInputScreen.tsx:72-79 | duration becomes the slider value, the other answers stay, range kept |
| SymptomInput.SymptomForm.ToggleOutsidePeriods | src/components/screens/SymptomInputScreen.tsx:90-95 | the pain-outside-periods answer becomes the switch state, the other answers stay |
| SymptomInput.SymptomForm.ToggleGiSymptoms | src/components/screens/SymptomInputScreen.tsx:99-104 | the gastrointestinal answer becomes the switch state, the other answers stay |
| SymptomInput.SymptomForm.ToggleFatigue | src/components/screens/SymptomInputScreen.tsx:108-113 | the fatigue answer becomes the switch state, the other answers stay |
| SymptomInput.SymptomForm.ToggleIrregularCycles | src/components/screens/SymptomInputScreen.tsx:117-122 | the irregular-cycles answer becomes the switch state, the other answers stay |
| SymptomInput.SymptomForm.HandleSubmit | src/components/screens/SymptomInputScreen.tsx:17-19 | submit hands over every answer of the working copy unchanged |
| Controller.Initial | src/pages/Index.tsx:19-27 | the page opens on the landing screen with in-range answers |
| Controller.StartOverResets | src/pages/Index.tsx:58-68 | start over restores the opening state, with the default answers, from any state |
| Controller.CheckRiskThenBack | src/pages/Index.tsx:49-96 | check-risk shows the form without touching the answers, and back then restores the original state |
| Controller.AssessStores | src/pages/Index.tsx:53-56 | assess stores the submitted answers verbatim and shows the result, whose level is that of those answers |
| Controller.OfferedActionsMove | src/pages/Index.tsx:73-115 | every handler a screen offers leads to a different screen |
| Controller.ResultsOnlyByAssess | src/pages/Index.tsx:49-68 | a step reaches the result screen iff it is assess |
| Controller.RunKeepsRange | src/pages/Index.tsx:19-68 | along any history with in-range submissions the stored answers stay in range |
| Controller.RunScreen | src/pages/Index.tsx:49-68 | after any history the page is on the result screen iff the last handler was assess, and then stores that submission |
| Controller.App.constructor | src/pages/Index.tsx:19-27 | the page starts on the landing screen with the default answers |
| Controller.App.HandleCheckRisk | src/pages/Index.tsx:49-51 | shows the form, answers unchanged, as the step function says |
| Controller.App.HandleAssessRisk | src/pages/Index.tsx:53-56 | stores the submission and shows the result, as the step function says |
| Controller.App.HandleBack | src/pages/Index.tsx:96 | shows the landing screen, answers unchanged, as the step function says |
| Controller.App.HandleStartOver | src/pages/Index.tsx:58-68 | restores the default answers and the landing screen, as the step function says |
| Controller.App.ShownLevel | src/pages/Index.tsx:109-113 | the level given to the result screen is high/medium/low by the thresholds on the stored answers |
| Controller.Perform | src/components/screens/SymptomInputScreen.tsx:50-122 | a widget edit routed to its callback changes the working copy as the edit specifies |
| Controller.VisitForm | src/pages/Index.tsx:93-97 | a visit to the form stores exactly the edited answers on submit and discards every edit on back; answers stay in range |

## Left out

- Markup, class-name strings, icons and text: the JSX layout of every screen, the badge classes and the advice messages of the level lookup (only its label is modelled). None of these has behaviour beyond display.
- Animations: the screen transitions and the bar growth animation. They are cosmetic only.
- Opening external pages from the result screen. This is browser I/O with no effect on the state.
- src/components/screens/LandingScreen.tsx and src/components/Logo.tsx are not part of this model. The landing screen only forwards "check my risk", which is `Controller.App.HandleCheckRisk`.
- The slider, switch and button widgets are library code. Only their value contracts are modelled: slider integers within their bounds (the slider callers' preconditions and `SymptomInput.WidgetValue`) and switch booleans.
- React scheduling and re-rendering. Each handler is one atomic state update, because React applies the two updates inside a handler together. The working copy of the form lives only while the form is shown, which `Controller.VisitForm` captures by creating a fresh form per visit.
- IEEE double arithmetic. It is replaced by exact tenths and half-up integer rounding, which agree on every reachable input as argued above.
- ContributorChart.Bars: requires a positive maximum. With a maximum of 0 the page would draw NaN widths. The result screen never passes one, because its maximum is at least 10 (`RiskResult.MaxValueOfContributions`).
- Labels are modelled as the `Symptom` enumeration, with the displayed text given by `RiskResult.LabelText`. The chart is generic in the label type.
