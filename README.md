# SmartEat meal log, modelled in Dafny

SmartEat is a mobile nutrition tracker. The user photographs a meal, a
remote vision model estimates the food and its macros, and the app keeps a
session log of meals. From that log it derives today's totals and the
progress of a few goal tasks. This project models the logic behind that
flow:

- `types.dfy` (module `Types`) holds the records and unions of `types.ts`
  as datatypes: `NutrientInfo` (five numeric fields), `Meal`,
  `NutritionTask`, `UserProfile` and the unions `AppTab`, `MealType`,
  `TaskType` and `TaskCategory`.
- `camera_modal.dfy` (module `CameraModal`) models the capture dialog as a
  class `CaptureDialog` with the four state fields of the component. The
  asynchronous analysis is an event the environment delivers:
  `AnalysisSucceeded(r)` or `AnalysisFailed()`. A ghost counter `pending`
  records the calls that were started and have not yet resolved, so a
  response can only arrive after a capture has started it. The object
  invariant says that a running analysis, a pending call and a result all
  belong to a captured photo. That is why the `capturedImage!` of the save
  handler never meets a null.
- `analysis.dfy` (module `Analysis`) holds the analysis result and the JSON
  shape of the analyser's answer.
- `app.dfy` (module `App`) models the session of `App.tsx` as a class
  `Session` with the fields `activeTab`, `showCamera`, `meals` (newest
  first) and `tasks`. Its methods are the tab, open, close and save
  handlers. The session holds the mounted dialog: it exists exactly while
  `showCamera` holds. The derived values are functions with lemmas:
  - `TodayMeals` is the day filter;
  - `TodayTotal` is the reduce, with `Sum` as its reference definition;
  - `UpdateTask` and `UpdateTasks` are the task `map`;
  - `ProgressWidth` is the progress clamp.

  The session invariant keeps a ghost copy of the seeded tasks. It states
  that the current tasks are the seeded ones with every logged meal
  applied, so every protein (or calorie) task stands at its seeded value
  plus the summed protein (or calories) of all meals logged
  (`ApplyMealsAccrues`). It also states that the task list is never empty
  and every target is positive, so `tasks[0]` and every progress ratio are
  always defined.

Nutrient amounts and task values are `real`, since JavaScript numbers here
are only added and divided. Timestamps are `int` milliseconds. The calendar
day of a timestamp (the `toDateString` comparison) is a parameter
`dayOf: int -> int`. `Date.now()` and the random meal id are parameters of
`Session.SaveMeal` and of the constructor.

A failed analysis does not clear an earlier result
(`components/CameraModal.tsx:30-34`): `AnalysisFailed` keeps
`analysisResult`. Still, a failure never leaves a result behind, because a
dialog takes only one photo. The file input is hidden and is opened only
by the photo button (`components/CameraModal.tsx:55-75`), and that button
is offered only before the first capture. So `HandleCapture` requires
`ShowsPhotoButton` and makes it false, and the dialog invariant allows at
most one outstanding analysis, which is outstanding only while no result
exists. `AnalysisFailed` therefore ensures that no result exists and the
commit stays disabled. The session mounts a fresh dialog when it shows the
dialog and drops it when the dialog is hidden (`Session.OpenCamera`,
`Session.CloseCamera`, `Session.SaveMeal`). `AnalysisFailureKeepsSaveDisabled`
and `ReopenStartsFresh` are worked scenarios of both facts.

`analysis.dfy` (module `Analysis`) models the analyser's answer
(`geminiService.ts`). The answer is a JSON object with six flat properties:
`foodName`, `calories`, `protein`, `fat`, `carbs` and `weight`. The dialog
stores a result with the five quantities nested under `nutrients`.
`FromJson` and `ToJson` convert between the two shapes, and round-trip
lemmas connect them. The code as written skips that conversion (see
"## Findings").

## Model

| member | source | states |
|---|---|---|
| Types.AllTabs | types.ts:39 | the tab union lists four distinct values |
| Types.AllTabsComplete | types.ts:39 | every tab is one of dashboard, meals, tasks, profile |
| Types.AllMealTypes | types.ts:13 | the meal-type union lists four distinct values |
| Types.AllMealTypesComplete | types.ts:13 | every meal type is breakfast, lunch, dinner or snack |
| Types.AllCategories | types.ts:28 | the task-category union lists five distinct values |
| Types.AllCategoriesComplete | types.ts:28 | every category is calories, protein, veg, water or sugar |
| Types.AllTaskTypes | types.ts:27 | the task type is one of two distinct values |
| Types.AllTaskTypesComplete | types.ts:27 | every task type is weekly or monthly |
| CameraModal.CaptureDialog.constructor | components/CameraModal.tsx:13-16 | a new dialog has no photo, no running analysis, no result and an empty note |
| CameraModal.CaptureDialog.CanSave | components/CameraModal.tsx:125 | the commit button is enabled exactly when a result exists |
| CameraModal.CaptureDialog.ShowsPhotoButton | components/CameraModal.tsx:55-58 | the photo button is offered exactly while no photo has been captured |
| CameraModal.CaptureDialog.HandleCapture | components/CameraModal.tsx:19-26 | happens only while the photo button is offered (the hidden input of lines 55-75); no file: nothing changes; a file: the photo is stored and the one analysis starts, with no result yet and the note untouched, and the photo button is no longer offered |
| CameraModal.CaptureDialog.AnalysisSucceeded | components/CameraModal.tsx:27-34 | the result becomes exactly the returned value and analysis stops; photo and note untouched |
| CameraModal.CaptureDialog.AnalysisFailed | components/CameraModal.tsx:30-34 | the result is left as it was, which is no result at all, so the commit stays disabled; analysis stops; photo and note untouched |
| CameraModal.CaptureDialog.EditNote | components/CameraModal.tsx:86-113 | the note, shown once a result exists, is the only thing that changes |
| CameraModal.CaptureDialog.Save | components/CameraModal.tsx:124-126 | a payload exists exactly when a result exists; it is the result's food name and nutrients plus the photo and the note |
| CameraModal.AnalysisSuccessEnablesSave | components/CameraModal.tsx:125-126 | after a successful analysis the commit is enabled and commits exactly that result with the photo and note |
| CameraModal.AnalysisFailureKeepsSaveDisabled | components/CameraModal.tsx:30-34 | after a failed analysis there is no result, analysis has stopped, the commit stays disabled and the photo button, the only way to take another photo, is not offered |
| App.InitialTasks | App.tsx:14-18 | three seeded tasks with distinct ids, categories veg, protein and sugar, positive targets, weekly, deadlines after now |
| App.InitialProfile | App.tsx:20-26 | the fixed profile the session shows |
| App.OnDay | App.tsx:29 | a meal belongs to today when its timestamp falls on the calendar day of now |
| App.Session.constructor | App.tsx:11-26 | the session starts on the dashboard, dialog closed and unmounted, no meals, the seeded tasks and the fixed profile |
| App.TodayMeals | App.tsx:29 | a meal is kept if and only if it is in the log and falls on the current day, whatever its time of day; never longer than the log |
| App.TodayMealsAppend | App.tsx:29 | the filter distributes over concatenation, so it keeps the log's order |
| App.TodayMealsKeepsAll | App.tsx:29 | the filter returns the whole log exactly when every meal is from today |
| App.TodayMealsIdempotent | App.tsx:29 | filtering today's meals again changes nothing |
| App.Reduce | App.tsx:31-36 | the left fold that adds each meal's calories, protein, fat and carbs to the accumulator |
| App.TodayTotal | App.tsx:30-36 | the reduce started at zero is the field-wise sum of the meals' macros |
| App.ReduceIsSum | App.tsx:31-36 | the left fold from any start value equals that value plus the field-wise sum |
| App.TodayTotalIsSum | App.tsx:30-36 | today's total is the field-wise sum: all zeros for no meals, the head's macros plus the rest's total otherwise |
| App.SumAppend | App.tsx:31-36 | the field-wise sum of two runs of meals adds up |
| App.TodayTotalAppend | App.tsx:30-36 | the total of two runs of meals is the sum of their totals |
| App.TodayTotalIgnoresWeight | App.tsx:31-36 | meals that differ only in weight give the same total |
| App.SaveAddsToToday | App.tsx:46-55 | a meal saved now adds exactly its calories, protein, fat and carbs to today's total |
| App.UpdateTask | App.tsx:60-62 | a task gains exactly the meal's amount for its category: protein and calories are wired, the other categories gain nothing, every other field is kept |
| App.UpdateTasks | App.tsx:59-63 | same length, and each task is updated in its own place |
| App.ProteinTaskExample | App.tsx:60 | a protein task at 45 of 80 gains 20 and stands at 65 with its target kept; further meals overshoot the target unclamped |
| App.ApplyMeals | App.tsx:59-63 | after any number of saves the task list keeps its length, ids, targets and categories |
| App.ApplyMealsAccrues | App.tsx:59-63 | after any number of saves each task is its seeded value plus its category's share of the summed macros of all logged meals |
| App.ProgressWidth | App.tsx:211 | the width never exceeds 100, is 100 exactly when the goal is met, is the exact percentage below it, and is non-negative for non-negative progress |
| App.NewMeal | App.tsx:46-54 | the meal built for a save payload: given id and time, a lunch, with the payload's image, food name, nutrients and note |
| App.Session.SelectTab | App.tsx:67 | only the active tab changes |
| App.Session.OpenCamera | App.tsx:67 | the dialog is shown; a hidden dialog is mounted fresh in its initial state, a shown one is kept; nothing else changes |
| App.Session.CloseCamera | App.tsx:260-261 | the dialog is hidden and unmounted; meals, tasks and tab unchanged |
| App.Session.SaveMeal | App.tsx:45-64 | the new meal is prepended (one longer, head is the new meal, the older meals unchanged and in order); it copies name, nutrients and image, takes the note as description, is a lunch; the dialog is hidden and unmounted; tasks are mapped; the invariant is kept |
| App.Session.CommitDialog | App.tsx:260-261 | only while the dialog is shown: a meal is recorded exactly when the dialog holds a result, built from that result, the photo and the note, and the dialog is then unmounted; otherwise nothing changes |
| App.Session.FeaturedProgress | App.tsx:117-122 | the featured task `tasks[0]` always exists; its bar is at most 100 and full exactly when its goal is met |
| App.Session.TaskWidths | App.tsx:197-212 | one bar per task, each at most 100 and full exactly when that task's goal is met |
| App.Session.DashboardTotals | App.tsx:28-37 | the dashboard shows the field-wise sum of today's meals |
| App.LogMealScenario | App.tsx:45-64 | open, photograph, analyse, annotate and commit: the log then holds exactly that meal, and the dialog is closed |
| App.ReopenStartsFresh | App.tsx:260-261 | closing the dialog discards its result: a reopened dialog has the commit disabled and the photo button offered |
| Analysis.ConformsToSchema | geminiService.ts:25-35 | the response schema, read as closed: a conforming answer is one object with exactly the six flat properties |
| Analysis.NutrientsAsWritten | components/CameraModal.tsx:90-96 | the nested `result.nutrients.<field>` reads of the code as written; they find a value only when the answer has a `nutrients` object |
| Analysis.NestedAnswerIsRead | App.tsx:60-61 | the nested reads do work on the `{foodName, nutrients}` shape the callers expect, and that shape does not follow the schema |
| Analysis.SchemaResponseHasNoNutrients | geminiService.ts:25-40 | an answer that follows the schema has no `nutrients` property, so the nested read of the code as written is undefined |
| Analysis.ToJson | geminiService.ts:25-35 | a result's encoding follows the schema |
| Analysis.FromJson | geminiService.ts:25-35 | an answer is read as a result exactly when it follows the schema |
| Analysis.FromJsonToJson | geminiService.ts:25-35 | reading back a result's encoding gives that result |
| Analysis.ToJsonFromJson | geminiService.ts:25-35 | every schema answer is the encoding of the result read from it |
| Analysis.ChickenBreastExample | geminiService.ts:40 | the grilled-chicken answer follows the schema; the nested read finds nothing, and FromJson gives the intended result |

## Left out

- Rendering is not modelled: JSX, charts, icons, CSS, `toFixed`, the rounded percentage label, and the `toLocaleTimeString` and `toLocaleDateString` calls.
- `components/Layout.tsx` is not modelled. Its buttons only call `setActiveTab` with fixed tabs and `onAddClick`, which are `Session.SelectTab` and `Session.OpenCamera`.
- The remote calls of `geminiService.ts` are not modelled. The image analysis is an external success or failure event. The weekly task generator is never called by the UI, so it is left out with its parse fallback.
- AnalysisSucceeded: the success event is assumed to carry the nested `{foodName, nutrients}` result that `Analysis.FromJson` produces. The code as written hands over the flat parsed answer instead (see "## Findings").
- `FileReader`, the base64 split of the data URL, `async`/`await` and `console.error` are not modelled. A capture takes the data URL as its argument, and an analysis resolves as one atomic event.
- The race where an analysis resolves after its dialog is closed is not modelled. Once the session drops a dialog, no further events reach it.
- `Date.now()`, `Math.random()` ids and time-zone behaviour of `toDateString` are not modelled. They are parameters (`now`, `id`, `dayOf`).
- JavaScript floating point is not modelled. Nutrient values are exact reals, with no rounding, NaN or infinities.
- ProgressWidth: requires a positive target, so the Infinity or NaN that JavaScript gives for a zero target is not modelled. In a valid session every task target is positive.
- Analysis.ConformsToSchema: the schema of `geminiService.ts:25-35` lists its properties and marks all six required, but does not say whether further properties are allowed. The model reads it as closed, so an answer with an extra `nutrients` object does not conform. The finding below holds of every answer that has exactly the schema's properties.
- `UserProfile` has no behaviour: it is a datatype and a fixed value, because the session never changes it.
- The non-negativity of nutrient values is not enforced, because types.ts and App.tsx do not enforce it either.

## Findings

| source | as written | input that shows it | evidently intended | confidence | as-written member | corrected member |
|---|---|---|---|---|---|---|
| geminiService.ts:40 | `analyzeMealImage` returns the parsed flat answer as `{foodName, nutrients}`, and the callers read `result.nutrients.weight` (components/CameraModal.tsx:90) and `mealData.nutrients.protein` (App.tsx:60) | the schema answer `{"foodName":"烤鸡胸肉","calories":250,"protein":40,"fat":8,"carbs":2,"weight":150}` has no `nutrients` property, so every such read is undefined and the next property read throws | nest the five quantities under `nutrients` before returning | not executed; high from the text of the schema and the callers | Analysis.SchemaResponseHasNoNutrients | Analysis.FromJson |
