# Workout planner: plan generation and PDF layout, in Dafny

This project models the two parts of the AI Workout Generator front end that
carry rules.

- **The plan generator** (`src/services/api.ts`). For every muscle group of
  every training day, it filters an exercise catalog by fitness level and
  preference type. It keeps the first two matches in catalog order and
  projects each into a `WorkoutExercise`. The split row comes from the days
  per week clamped into 3..6, and each row entry becomes one day labelled
  from a fixed list of seven day names. The response echoes the request and
  adds a title, a description and a keyword string. The catalog and the
  split table are parameters (`Catalog`, `SplitTable`); `SplitsWellFormed`
  states what the shipped tables are expected to satisfy.
- **The PDF layout** (`src/utils/pdfGenerator.ts`). A cursor `(page, y)`
  moves down by fixed amounts per line. Before each day header and each
  exercise, a new page starts at y = 20 when y is past `pageHeight - 40`.
  The layout is first given as functions (`LayExercise`, `LayDay`,
  `LayDays`, `LayDocument`). `GeneratePdf` then computes it the way the
  source does, with `page` and `y` updated in nested loops, and is proved
  to produce exactly the functions' draw commands. The lemmas state the
  spacing, page-break, ordering and placement guarantees.

Files:

- `text.dfy` (module `Text`): integer-to-decimal conversion with its parser,
  ASCII lower-casing and `join`.
- `workout_types.dfy` (module `WorkoutTypes`): the record shapes of
  `src/types.ts`.
- `plan_generator.dfy` (module `PlanGenerator`): `api.ts`, plus the one
  rule of `App.tsx` that reads the envelope.
- `pdf_layout.dfy` (module `PdfLayout`): `pdfGenerator.ts`.

Two points of the code shape the model:

- `DAYS_OF_WEEK[index]` (src/services/api.ts:50) does not wrap around, so
  the model requires every split row to have at most seven entries
  (`RowsFitWeek`).
- A failure rejects the promise with the fixed message
  (src/services/api.ts:79-81), so the model returns
  `Failure(FailureMessage)` and never a partial plan.

## Model

| member | source | states |
|---|---|---|
| `PlanGenerator.ExercisesForMuscleGroup` | src/services/api.ts:6-27 | at most `count` results; an unknown muscle group gives none |
| `PlanGenerator.DaysOfWeekDistinct` | src/services/api.ts:4 | seven day labels, no two alike |
| `PlanGenerator.Eligible` | src/services/api.ts:15-18 | an entry passes only if its level list contains the level, the preference list is non-empty and the entry has a type |
| `PlanGenerator.Entries` | src/services/api.ts:12 | the group's catalog list, or the empty list for an unknown group |
| `PlanGenerator.Project` | src/services/api.ts:20-26 | name, duration and equipment copied; defaultReps becomes repetitions and defaultSets becomes sets |
| `PlanGenerator.Eligibles` | src/services/api.ts:14-18 | the filter keeps only catalog entries whose level list contains the level and whose type list meets the preferences, never more than the catalog holds |
| `PlanGenerator.SliceFromStart` | src/services/api.ts:19 | `slice(0, end)` returns a prefix: `min(end, n)` elements for a non-negative end, `n + end` (at least 0) for a negative one |
| `PlanGenerator.ProjectAll` | src/services/api.ts:20-26 | one output record per selected entry, in the same order |
| `PlanGenerator.SelectionEligible` | src/services/api.ts:14-26 | every result is the projection of an eligible entry of that group |
| `PlanGenerator.SelectionInCatalogOrder` | src/services/api.ts:14-26 | an eligible entry with k < count eligible entries before it is the k-th result, with name, duration and equipment copied, defaultReps as repetitions and defaultSets as sets |
| `PlanGenerator.SelectionOrigin` | src/services/api.ts:14-26 | the k-th result is the projection of an eligible entry of the group with exactly k eligible entries before it (nothing skipped, reordered or invented) |
| `PlanGenerator.SelectionLength` | src/services/api.ts:19 | exactly min(count, number of eligible entries) results |
| `PlanGenerator.EmptyPreferencesSelectNothing` | src/services/api.ts:17 | an empty preference list selects nothing, without an error |
| `PlanGenerator.NothingEligibleWithoutPreferences` | src/services/api.ts:15-18 | no catalog entry passes the filter when the preference list is empty |
| `PlanGenerator.EligibleOrigin` | src/services/api.ts:14-18 | each filter result is a catalog entry preceded by exactly as many eligible entries as its position |
| `PlanGenerator.DayExercises` | src/services/api.ts:45-47 | a day has at most 2 exercises per muscle group |
| `PlanGenerator.DayExercisesOrigin` | src/services/api.ts:45-47 | every exercise of a day is an eligible catalog entry of one of that day's groups |
| `PlanGenerator.DayExercisesAppend` | src/services/api.ts:45-47 | flatMap over two consecutive group lists is the concatenation of the two results |
| `PlanGenerator.GroupSelectionInDay` | src/services/api.ts:45-47 | a day is the exercises of the groups before the k-th, then the k-th group's selection unchanged, then the exercises of the groups after it |
| `PlanGenerator.EmptyPreferencesEmptyDay` | src/services/api.ts:45-47 | with no preferences a day has no exercises |
| `PlanGenerator.WorkoutDays` | src/services/api.ts:44-53 | one day per split row entry, no two days with the same label |
| `PlanGenerator.ClampDays` | src/services/api.ts:41 | the key is in 3..6, equal to the request inside that range, 3 below it and 6 above it |
| `PlanGenerator.SeoTitle` | src/services/api.ts:68 | "level goal Workout Plan": the level, one space, the goal and " Workout Plan", each fixed at its position |
| `PlanGenerator.SeoContent` | src/services/api.ts:69 | the fixed 39-character opening, then the lower-cased goal; the days per week right before the closing " times a week." |
| `PlanGenerator.SeoKeywords` | src/services/api.ts:70 | the lower-cased goal, then ", ", the lower-cased level, " workout, " and the preferences joined by ", " last; the length is the parts plus these 12 fixed characters |
| `PlanGenerator.GenerateWorkoutPlan` | src/services/api.ts:29-82 | fails exactly when the clamped split row is missing, then with the fixed message only; on success the status is 'success' and cacheTime is the clock reading |
| `PlanGenerator.WellFormedTablesSucceed` | src/services/api.ts:41 | with rows for 3..6 days, generation always succeeds |
| `PlanGenerator.PlanEchoesRequest` | src/services/api.ts:56-70 | goal and level unchanged, total_weeks = plan_duration_weeks, schedule holds the unclamped days per week and the session duration, the success message, seo_title and seo_keywords built from goal, level and preferences |
| `PlanGenerator.PlanDays` | src/services/api.ts:41-53 | one day per entry of the row for the clamped value; day i is labelled DAYS_OF_WEEK[i] and holds the in-order selections of its groups, at most 2 per group, each an eligible entry of one of its groups |
| `PlanGenerator.DaysDependOnClampedValue` | src/services/api.ts:41 | requests whose days per week clamp to the same value get the same days |
| `PlanGenerator.DeterministicUpToCacheTime` | src/services/api.ts:56-73 | two generations from the same input differ at most in cacheTime |
| `PlanGenerator.EmptyPreferencesEmptyPlan` | src/services/api.ts:44-53 | with no preferences every day of the plan is empty |
| `PlanGenerator.DisplayedPlan` | src/App.tsx:19-26 | a plan is shown exactly when generation resolved with status 'success'; otherwise nothing is shown |
| `PlanGenerator.GeneratedPlanDisplayed` | src/App.tsx:19-26 | a generated plan is shown exactly when its split row exists |
| `Text.NatToString` | src/utils/pdfGenerator.ts:22-24 | a non-empty string of decimal digits with no leading zero, one digit exactly for values below 10 |
| `Text.NatToStringRoundTrip` | src/utils/pdfGenerator.ts:22-24 | reading the numeral back gives the number |
| `Text.IntToString` | src/services/api.ts:69 | a leading '-' exactly for negative numbers, then at least one digit and no leading zero |
| `Text.IntToStringRoundTrip` | src/services/api.ts:69 | the integer can be read back from its numeral |
| `Text.NegativeRoundTrip` | src/services/api.ts:69 | a negative integer's numeral is '-' then digits, and reads back to the integer |
| `Text.ToLower` | src/services/api.ts:69-70 | same length, each character lowered by LowerChar: no upper-case ASCII letter left, every other character kept |
| `Text.LowerChar` | src/services/api.ts:70 | an upper-case ASCII letter becomes its lower-case letter; any other character is kept |
| `Text.ToLowerIdempotent` | src/services/api.ts:70 | lower-casing twice is lower-casing once, and it distributes over concatenation |
| `Text.Join` | src/services/api.ts:69-70 | empty for no elements, otherwise it starts with the first element |
| `Text.JoinEndsWithLast` | src/services/api.ts:69-70 | a non-empty join ends with the last element |
| `Text.JoinAppend` | src/services/api.ts:70 | joining two non-empty lists puts exactly one separator between their joins |
| `Text.JoinLength` | src/services/api.ts:70 | the join holds every element's characters plus one separator per neighbouring pair |
| `PdfLayout.BreakIfNeeded` | src/utils/pdfGenerator.ts:36-39 | a page is added exactly when y > pageHeight - 40, and then y is 20; otherwise the cursor is unchanged; afterwards y <= max(20, pageHeight - 40) |
| `PdfLayout.OverviewLines` | src/utils/pdfGenerator.ts:19-25 | five lines (their texts are stated by `OverviewLinesReadBack`) |
| `PdfLayout.OverviewLinesReadBack` | src/utils/pdfGenerator.ts:19-25 | each overview line is its caption, its value and its unit at fixed positions: "Goal: " goal, "Fitness Level: " level, "Duration: " weeks " weeks", "Sessions: " days " days per week", "Session Duration: " minutes " minutes" |
| `PdfLayout.HeaderDraws` | src/utils/pdfGenerator.ts:10-31 | six commands on page 1 at the left margin, the title first, going down from y = 20 to at most 67, above where the days start |
| `PdfLayout.ExerciseLine` | src/utils/pdfGenerator.ts:60 | "name (equipment)": the name, " (", the equipment and ")", each fixed at its position |
| `PdfLayout.DetailLines` | src/utils/pdfGenerator.ts:67-71 | three lines: Duration, Sets and Reps, each label followed by its field |
| `PdfLayout.LayExercise` | src/utils/pdfGenerator.ts:51-78 | four commands, all on the page the cursor ends on; the cursor moves strictly forward, by at most one page |
| `PdfLayout.LayExercises` | src/utils/pdfGenerator.ts:51-78 | the cursor never moves back, moves forward when there is an exercise, and gains at most one page per exercise |
| `PdfLayout.LayDay` | src/utils/pdfGenerator.ts:34-81 | the day's label first, at the left margin; the cursor moves strictly forward, by at most one page plus one per exercise |
| `PdfLayout.LayDays` | src/utils/pdfGenerator.ts:34-81 | the cursor never moves back, and moves forward when there is a day |
| `PdfLayout.FooterText` | src/utils/pdfGenerator.ts:84 | the caption "Generated on " followed by the date, both at fixed positions |
| `PdfLayout.LayDocument` | src/utils/pdfGenerator.ts:4-94 | at least seven commands, the title first and the footer last, at pageHeight - 10 on the last page |
| `PdfLayout.DrawLines` | src/utils/pdfGenerator.ts:27-30 | the `forEach` over lines (the overview here, the details at lines 73-76) draws them stacked `step` apart from the cursor and moves it `step` per line: the result equals the reference function `Stacked` (each line after its prefix, at x, on the cursor's page, line i at y + step * i) |
| `PdfLayout.DrawHeader` | src/utils/pdfGenerator.ts:6-31 | draws the title and the overview lines and leaves y where the days start |
| `PdfLayout.DrawExercise` | src/utils/pdfGenerator.ts:51-78 | the per-exercise callback draws exactly LayExercise's commands and leaves its cursor |
| `PdfLayout.DrawDay` | src/utils/pdfGenerator.ts:34-81 | the per-day callback draws exactly LayDay's commands and leaves its cursor |
| `PdfLayout.DrawDays` | src/utils/pdfGenerator.ts:34-81 | the `forEach` over the days draws exactly LayDays's commands and leaves its cursor |
| `PdfLayout.GeneratePdf` | src/utils/pdfGenerator.ts:4-94 | the draw commands and page count equal those of the layout functions |
| `PdfLayout.HeaderPlacement` | src/utils/pdfGenerator.ts:6-31 | title at y = 20 on page 1; Goal, Fitness Level, Duration, Sessions, Session Duration at y = 35, 43, 51, 59, 67; days start from y = 85 |
| `PdfLayout.FirstDayHeader` | src/utils/pdfGenerator.ts:31-44 | the first day's header is drawn where the page check at y = 85 leaves the cursor, right after the overview |
| `PdfLayout.FirstDayFirst` | src/utils/pdfGenerator.ts:34-44 | the first command of the days section is the first day's header |
| `PdfLayout.ExerciseBlock` | src/utils/pdfGenerator.ts:53-77 | "name (equipment)" where the page check leaves the cursor, then Duration, Sets, Reps 7 apart; the cursor ends 31 lower |
| `PdfLayout.ExercisesWithoutBreak` | src/utils/pdfGenerator.ts:51-78 | exercises that fit above the threshold stay on the page, each 31 below the previous one |
| `PdfLayout.DayWithoutBreak` | src/utils/pdfGenerator.ts:34-81 | a day that fits takes 10 for the header, 31 per exercise and 10 at the end, all on one page |
| `PdfLayout.ExercisesDrawCount` | src/utils/pdfGenerator.ts:51-78 | four text lines per exercise |
| `PdfLayout.DaysDrawCount` | src/utils/pdfGenerator.ts:34-81 | one header plus four lines per exercise for each day |
| `PdfLayout.ConcatOrdered` | src/utils/pdfGenerator.ts:34-81 | two ordered runs of commands, one before the other, make an ordered run |
| `PdfLayout.ExerciseOrdered` | src/utils/pdfGenerator.ts:53-77 | an exercise's lines go strictly down the page, after the cursor it starts from and before the one it leaves |
| `PdfLayout.ExercisesOrdered` | src/utils/pdfGenerator.ts:51-78 | a day's exercises are drawn strictly in (page, y) order |
| `PdfLayout.DayOrdered` | src/utils/pdfGenerator.ts:34-81 | a day is drawn strictly in (page, y) order, after the cursor it starts from |
| `PdfLayout.DaysOrdered` | src/utils/pdfGenerator.ts:34-81 | pages never go back and y strictly increases within a page over all days |
| `PdfLayout.ExercisesPlaced` | src/utils/pdfGenerator.ts:51-62 | exercise name lines at y <= max(20, pageHeight - 40), detail lines at most 21 lower |
| `PdfLayout.DaysPlaced` | src/utils/pdfGenerator.ts:34-62 | every day header and exercise line at y <= max(20, pageHeight - 40), every detail line at most 21 lower |
| `PdfLayout.DocumentCount` | src/utils/pdfGenerator.ts:4-94 | 6 + one per header + four per exercise + 1 commands, every one on a page from 1 to the last |
| `PdfLayout.DocumentOrdered` | src/utils/pdfGenerator.ts:4-94 | everything before the footer in (page, y) order, and the footer too when pageHeight >= 78 |
| `PdfLayout.PlacedBeforeFooter` | src/utils/pdfGenerator.ts:83-91 | on a page of at least 78 units, every placed command is above the last page's footer line |
| `PdfLayout.DocumentShape` | src/utils/pdfGenerator.ts:83-91 | exactly one footer, last, at pageHeight - 10 on the last page; 6 + one per header + four per exercise commands before it; pages from 1; all commands before the footer in (page, y) order, and the footer too when pageHeight >= 78 |

## Left out

- The exercise catalog and the split table of `src/services/workoutData` are not part of this model. They are parameters; `SplitsWellFormed` names what they must satisfy.
- `PlanGenerator.GenerateWorkoutPlan`: requires every split row to have at most seven entries. The source would label an eighth day `undefined` rather than fail.
- `PlanGenerator.ExercisesForMuscleGroup`: the catalog lookup is a map lookup. A group named like an inherited object property (`toString`) would make the source throw; group names come from the split table.
- The simulated one-second delay (`setTimeout`) is left out. `Date.now()` is the parameter `now`, and `DeterministicUpToCacheTime` states determinism up to it.
- `days_per_week` and the other numeric fields are integers. The NaN that `parseInt` gives for an empty field, fractions and `-0` are not modelled.
- `Text.IntToString`: prints every integer in plain decimal. JavaScript prints magnitudes of 1e21 and above in exponent notation and rounds above 2^53; the form bounds the fields to small ranges (src/components/WorkoutForm.tsx:108-145), so the plan never holds such a value.
- `Text.ToLower`: lower-cases ASCII letters only, not the full Unicode mapping of `toLowerCase`.
- `seo_content` is built as a template, but no lemma is stated about it beyond its construction.
- PDF fonts, colours, `setFont` and `save` are left out. The page height is an integer parameter, not jsPDF's floating-point page size.
- The footer's x coordinate is the parameter `footerX`, because it depends on floating-point text metrics. The locale date string is the parameter `date`.
- `GeneratePdf` builds the list of draw commands; jsPDF's document object and its internal state are not modelled.
- The React components (form parsing, loading flag, error banner) and the nutrition and food request types are UI or unused. Only the envelope rule of `App.tsx` is stated (`DisplayedPlan`).
