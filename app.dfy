/** The meal-log session (App.tsx): which tab is shown, whether the capture
    dialog is open, the meals logged so far (newest first) and the goal
    tasks; with the values the dashboard derives from them. */
module App {
  import opened Types
  import opened Analysis
  import opened CameraModal

  const DayMs: int := 86400000
  const HourMs: int := 3600000

  // ---------------------------------------------------------------------
  // Seeded state

  /** The goal records a session starts with; `now` stands for `Date.now()`. */
  function InitialTasks(now: int): (ts: seq<NutritionTask>)
    ensures |ts| == 3
    ensures ts[0].category == Veg && ts[1].category == Protein && ts[2].category == Sugar
    ensures forall i :: 0 <= i < |ts| ==>
      ts[i].targetValue > 0.0 && ts[i].deadline > now && ts[i].taskType == Weekly
    ensures forall i, j :: 0 <= i < j < |ts| ==> ts[i].id != ts[j].id
  {
    [ NutritionTask("1", "周蔬菜摄入", 3500.0, 1200.0, "g", now + DayMs * 3, Weekly, Veg),
      NutritionTask("2", "每日蛋白质", 80.0, 45.0, "g", now + HourMs * 12, Weekly, Protein),
      NutritionTask("3", "控制糖分摄入", 200.0, 180.0, "g", now + DayMs * 5, Weekly, Sugar) ]
  }

  /** The fixed profile the session shows; it is never changed. */
  function InitialProfile(): UserProfile
  {
    UserProfile("李同学", 68.0, 175.0, "减脂塑形", 1800.0)
  }

  // ---------------------------------------------------------------------
  // Today's meals

  /** `dayOf` maps a timestamp to its calendar day (the `toDateString`
      comparison of App.tsx); a meal belongs to today when it falls on the day of `now`. */
  predicate OnDay(m: Meal, dayOf: int -> int, now: int)
  {
    dayOf(m.timestamp) == dayOf(now)
  }

  /** The meals of the current day, in the order of `meals`. */
  function TodayMeals(meals: seq<Meal>, dayOf: int -> int, now: int): (r: seq<Meal>)
    ensures |r| <= |meals|
    ensures forall m :: m in r <==> m in meals && OnDay(m, dayOf, now)
  {
    if meals == [] then []
    else if OnDay(meals[0], dayOf, now) then [meals[0]] + TodayMeals(meals[1..], dayOf, now)
    else TodayMeals(meals[1..], dayOf, now)
  }

  /** The filter keeps order: it distributes over concatenation, so the
      result is the subsequence of today's meals, not just the same set. */
  lemma {:induction false} TodayMealsAppend(a: seq<Meal>, b: seq<Meal>, dayOf: int -> int, now: int)
    ensures TodayMeals(a + b, dayOf, now) == TodayMeals(a, dayOf, now) + TodayMeals(b, dayOf, now)
  {
    if a == [] {
      assert a + b == b;
    } else {
      assert (a + b)[1..] == a[1..] + b;
      TodayMealsAppend(a[1..], b, dayOf, now);
    }
  }

  /** Nothing is dropped exactly when every meal is from today. */
  lemma {:induction false} TodayMealsKeepsAll(meals: seq<Meal>, dayOf: int -> int, now: int)
    ensures TodayMeals(meals, dayOf, now) == meals <==>
            forall i :: 0 <= i < |meals| ==> OnDay(meals[i], dayOf, now)
  {
    if meals != [] {
      var rest := meals[1..];
      TodayMealsKeepsAll(rest, dayOf, now);
      assert forall i :: 1 <= i < |meals| ==> meals[i] == rest[i - 1];
      if OnDay(meals[0], dayOf, now) {
        assert TodayMeals(meals, dayOf, now) == [meals[0]] + TodayMeals(rest, dayOf, now);
        assert meals == [meals[0]] + rest;
      } else {
        assert TodayMeals(meals, dayOf, now) == TodayMeals(rest, dayOf, now);
        assert |TodayMeals(rest, dayOf, now)| < |meals|;
      }
    }
  }

  /** Filtering twice is filtering once. */
  lemma TodayMealsIdempotent(meals: seq<Meal>, dayOf: int -> int, now: int)
    ensures TodayMeals(TodayMeals(meals, dayOf, now), dayOf, now) == TodayMeals(meals, dayOf, now)
  {
  }

  // ---------------------------------------------------------------------
  // Today's totals

  /** The accumulator of the dashboard's reduce: no weight field. */
  datatype Totals = Totals(calories: real, protein: real, fat: real, carbs: real)

  function ZeroTotals(): Totals
  {
    Totals(0.0, 0.0, 0.0, 0.0)
  }

  /** The four macros of a meal's nutrients, dropping the weight. */
  function Macros(n: NutrientInfo): Totals
  {
    Totals(n.calories, n.protein, n.fat, n.carbs)
  }

  function Combine(a: Totals, b: Totals): Totals
  {
    Totals(a.calories + b.calories, a.protein + b.protein, a.fat + b.fat, a.carbs + b.carbs)
  }

  /** One step of the reduce: add a meal's macros to the accumulator. */
  function AddNutrients(acc: Totals, n: NutrientInfo): Totals
  {
    Combine(acc, Macros(n))
  }

  /** The left fold `meals.reduce(step, acc)`. */
  function Reduce(acc: Totals, meals: seq<Meal>): Totals
    decreases |meals|
  {
    if meals == [] then acc else Reduce(AddNutrients(acc, meals[0].nutrients), meals[1..])
  }

  /** The reduce over today's meals, started at zero: the field-wise sum. */
  function TodayTotal(todayMeals: seq<Meal>): (tot: Totals)
    ensures tot == Sum(todayMeals)
  {
    ReduceIsSum(ZeroTotals(), todayMeals);
    Reduce(ZeroTotals(), todayMeals)
  }

  /** Reference definition: the field-wise sum of the meals' macros. */
  function Sum(meals: seq<Meal>): Totals
  {
    if meals == [] then ZeroTotals() else AddNutrients(Sum(meals[1..]), meals[0].nutrients)
  }

  lemma {:induction false} ReduceIsSum(acc: Totals, meals: seq<Meal>)
    ensures Reduce(acc, meals) == Combine(acc, Sum(meals))
    decreases |meals|
  {
    if meals != [] {
      ReduceIsSum(AddNutrients(acc, meals[0].nutrients), meals[1..]);
    }
  }

  /** The reduce computes the field-wise sum: zero for no meals, and the
      head's macros plus the total of the rest otherwise. */
  lemma TodayTotalIsSum(meals: seq<Meal>)
    ensures TodayTotal(meals) == Sum(meals)
    ensures TodayTotal([]) == ZeroTotals()
    ensures meals != [] ==> TodayTotal(meals) == AddNutrients(TodayTotal(meals[1..]), meals[0].nutrients)
  {
  }

  lemma {:induction false} SumAppend(a: seq<Meal>, b: seq<Meal>)
    ensures Sum(a + b) == Combine(Sum(a), Sum(b))
  {
    if a == [] {
      assert a + b == b;
    } else {
      var ab := a + b;
      assert ab[1..] == a[1..] + b;
      assert ab[0] == a[0];
      SumAppend(a[1..], b);
      var s1, sb := Sum(a[1..]), Sum(b);
      assert Sum(ab) == AddNutrients(Combine(s1, sb), a[0].nutrients);
      assert Sum(a) == AddNutrients(s1, a[0].nutrients);
    }
  }

  /** The total of two runs of meals is the sum of their totals. */
  lemma TodayTotalAppend(a: seq<Meal>, b: seq<Meal>)
    ensures TodayTotal(a + b) == Combine(TodayTotal(a), TodayTotal(b))
  {
    TodayTotalIsSum(a + b);
    TodayTotalIsSum(a);
    TodayTotalIsSum(b);
    SumAppend(a, b);
  }

  predicate SameMacros(n: NutrientInfo, n': NutrientInfo)
  {
    n.calories == n'.calories && n.protein == n'.protein && n.fat == n'.fat && n.carbs == n'.carbs
  }

  /** Weight never contributes: meals that differ only in weight total the same. */
  lemma {:induction false} TodayTotalIgnoresWeight(a: seq<Meal>, b: seq<Meal>)
    requires |a| == |b|
    requires forall i :: 0 <= i < |a| ==> SameMacros(a[i].nutrients, b[i].nutrients)
    ensures TodayTotal(a) == TodayTotal(b)
  {
    SumIgnoresWeight(a, b);
    TodayTotalIsSum(a);
    TodayTotalIsSum(b);
  }

  lemma {:induction false} SumIgnoresWeight(a: seq<Meal>, b: seq<Meal>)
    requires |a| == |b|
    requires forall i :: 0 <= i < |a| ==> SameMacros(a[i].nutrients, b[i].nutrients)
    ensures Sum(a) == Sum(b)
  {
    if a != [] {
      SumIgnoresWeight(a[1..], b[1..]);
    }
  }

  /** Logging meal `m` at its own time adds exactly its macros to today's total. */
  lemma SaveAddsToToday(m: Meal, meals: seq<Meal>, dayOf: int -> int)
    ensures TodayTotal(TodayMeals([m] + meals, dayOf, m.timestamp)) ==
            AddNutrients(TodayTotal(TodayMeals(meals, dayOf, m.timestamp)), m.nutrients)
  {
  }

  // ---------------------------------------------------------------------
  // Task progress

  /** A task's share of a macro total, per category: protein and calories
      are wired to the matching macro, the other three categories to nothing. */
  function TotalGain(c: TaskCategory, tot: Totals): real
  {
    match c
    case Protein => tot.protein
    case Calories => tot.calories
    case Veg => 0.0
    case Water => 0.0
    case Sugar => 0.0
  }

  /** How much a meal adds to a task: its category's share of the meal's macros. */
  function MealGain(c: TaskCategory, n: NutrientInfo): real
  {
    TotalGain(c, Macros(n))
  }

  /** The per-task rule of the update after a save, as App.tsx writes it. */
  function UpdateTask(t: NutritionTask, n: NutrientInfo): (u: NutritionTask)
    ensures u == t.(currentValue := t.currentValue + MealGain(t.category, n))
  {
    if t.category == Protein then t.(currentValue := t.currentValue + n.protein)
    else if t.category == Calories then t.(currentValue := t.currentValue + n.calories)
    else t
  }

  /** `tasks.map(rule)`: same length, each task updated in its place. */
  function UpdateTasks(tasks: seq<NutritionTask>, n: NutrientInfo): (r: seq<NutritionTask>)
    ensures |r| == |tasks|
    ensures forall i :: 0 <= i < |tasks| ==> r[i] == UpdateTask(tasks[i], n)
  {
    if tasks == [] then [] else [UpdateTask(tasks[0], n)] + UpdateTasks(tasks[1..], n)
  }

  /** The worked example: a protein task at 45 of 80 gains 20 and stands at
      65, its target untouched; gaining 40 more overshoots with no clamp. */
  lemma ProteinTaskExample(n: NutrientInfo)
    requires n.protein == 20.0
    ensures var t := NutritionTask("2", "每日蛋白质", 80.0, 45.0, "g", 0, Weekly, Protein);
            var u := UpdateTask(t, n);
            u.currentValue == 65.0 && u.targetValue == 80.0 &&
            UpdateTask(UpdateTask(u, n), n).currentValue == 105.0
  {
  }

  /** The tasks after logging `meals` (newest first) on top of `seed`. */
  function ApplyMeals(seed: seq<NutritionTask>, meals: seq<Meal>): (r: seq<NutritionTask>)
    ensures |r| == |seed|
    ensures forall i :: 0 <= i < |seed| ==>
      r[i].id == seed[i].id && r[i].targetValue == seed[i].targetValue &&
      r[i].category == seed[i].category
  {
    if meals == [] then seed else UpdateTasks(ApplyMeals(seed, meals[1..]), meals[0].nutrients)
  }

  /** Each task ends up at its seeded value plus the summed protein (or
      calories) of every meal logged, whatever the day; other categories
      stay at their seeded value. */
  lemma {:induction false} ApplyMealsAccrues(seed: seq<NutritionTask>, meals: seq<Meal>, i: int)
    requires 0 <= i < |seed|
    ensures ApplyMeals(seed, meals)[i] ==
            seed[i].(currentValue := seed[i].currentValue + TotalGain(seed[i].category, Sum(meals)))
  {
    if meals != [] {
      ApplyMealsAccrues(seed, meals[1..], i);
    }
  }

  // ---------------------------------------------------------------------
  // Progress bar

  /** `Math.min(100, current / target * 100)`, the width of a progress bar. */
  function ProgressWidth(current: real, target: real): (w: real)
    requires target > 0.0
    ensures w <= 100.0
    ensures w == 100.0 <==> current >= target
    ensures current < target ==> w * target == current * 100.0
    ensures current >= 0.0 ==> w >= 0.0
  {
    var pct := current / target * 100.0;
    assert pct * target == current * 100.0;
    assert pct >= 100.0 <==> current >= target;
    if pct < 100.0 then pct else 100.0
  }

  /** The meal the session records for a save payload. */
  function NewMeal(p: SavePayload, id: string, now: int): Meal
  {
    Meal(id, now, Lunch, Some(p.image), p.foodName, p.nutrients, Some(p.textInfo))
  }

  // ---------------------------------------------------------------------
  // The session

  class Session {
    var activeTab: AppTab
    var showCamera: bool
    var meals: seq<Meal>
    var tasks: seq<NutritionTask>
    const profile: UserProfile

    /** The mounted capture dialog: present exactly while `showCamera` holds. */
    var dialog: CaptureDialog?

    /** The tasks as they were seeded when the session started. */
    ghost var seed: seq<NutritionTask>

    /** The task list is never empty, every target is positive, and the
        tasks are the seed with every logged meal applied. */
    ghost predicate TasksValid()
      reads this
    {
      |seed| > 0 &&
      (forall i :: 0 <= i < |seed| ==> seed[i].targetValue > 0.0) &&
      tasks == ApplyMeals(seed, meals)
    }

    /** The task invariant, and a valid dialog exists exactly while it is shown. */
    ghost predicate Valid()
      reads this, dialog
    {
      TasksValid() &&
      (showCamera <==> dialog != null) &&
      (dialog != null ==> dialog.Valid())
    }

    constructor(now: int)
      ensures Valid()
      ensures activeTab == Dashboard && !showCamera && dialog == null && meals == []
      ensures tasks == InitialTasks(now) && profile == InitialProfile()
    {
      activeTab := Dashboard;
      showCamera := false;
      dialog := null;
      meals := [];
      tasks := InitialTasks(now);
      profile := InitialProfile();
      seed := InitialTasks(now);
    }

    method SelectTab(t: AppTab)
      requires Valid()
      modifies this
      ensures Valid()
      ensures activeTab == t
      ensures showCamera == old(showCamera) && dialog == old(dialog)
      ensures meals == old(meals) && tasks == old(tasks) && seed == old(seed)
    {
      activeTab := t;
    }

    /** The add button of the tab bar. Showing the dialog mounts a new one
        in its initial state; a dialog already shown is kept as it is. */
    method OpenCamera()
      requires Valid()
      modifies this
      ensures Valid()
      ensures showCamera && dialog != null
      ensures old(showCamera) ==> dialog == old(dialog)
      ensures !old(showCamera) ==>
        fresh(dialog) && dialog.capturedImage == None && !dialog.isAnalyzing &&
        dialog.analysisResult == None && dialog.extraText == "" && dialog.pending == 0
      ensures activeTab == old(activeTab) && meals == old(meals) && tasks == old(tasks)
      ensures seed == old(seed)
    {
      if !showCamera {
        dialog := new CaptureDialog();
      }
      showCamera := true;
    }

    /** The dialog's close button: hiding the dialog unmounts it, and its
        photo, result and note are gone. */
    method CloseCamera()
      requires Valid()
      modifies this
      ensures Valid()
      ensures !showCamera && dialog == null
      ensures activeTab == old(activeTab) && meals == old(meals) && tasks == old(tasks)
      ensures seed == old(seed)
    {
      showCamera := false;
      dialog := null;
    }

    /** `handleSaveMeal`: record the new meal first in the list, close (and
        so unmount) the dialog and bump the protein and calorie tasks. `id`
        and `now` stand for the random id and `Date.now()`. */
    method SaveMeal(payload: SavePayload, id: string, now: int)
      requires Valid()
      modifies this
      ensures Valid()
      ensures meals == [NewMeal(payload, id, now)] + old(meals)
      ensures |meals| == |old(meals)| + 1 && meals[1..] == old(meals)
      ensures meals[0].id == id && meals[0].timestamp == now && meals[0].mealType == Lunch
      ensures meals[0].foodName == payload.foodName && meals[0].nutrients == payload.nutrients
      ensures meals[0].image == Some(payload.image) && meals[0].description == Some(payload.textInfo)
      ensures !showCamera && dialog == null && activeTab == old(activeTab)
      ensures tasks == UpdateTasks(old(tasks), payload.nutrients)
      ensures seed == old(seed)
    {
      var newMeal := NewMeal(payload, id, now);
      assert ([newMeal] + meals)[1..] == meals;
      meals := [newMeal] + meals;
      showCamera := false;
      dialog := null;
      tasks := UpdateTasks(tasks, payload.nutrients);
    }

    /** The commit button of the shown dialog, wired to `handleSaveMeal`: a
        meal is recorded exactly when the dialog holds an analysis result. */
    method CommitDialog(id: string, now: int) returns (saved: bool)
      requires Valid() && showCamera
      modifies this
      ensures Valid()
      ensures saved <==> old(dialog.analysisResult).Some?
      ensures saved ==>
        old(dialog.capturedImage).Some? &&
        meals == [NewMeal(SavePayload(old(dialog.analysisResult).value.foodName,
                                      old(dialog.analysisResult).value.nutrients,
                                      old(dialog.capturedImage).value,
                                      old(dialog.extraText)), id, now)] + old(meals) &&
        !showCamera && dialog == null &&
        tasks == UpdateTasks(old(tasks), old(dialog.analysisResult).value.nutrients)
      ensures !saved ==>
        meals == old(meals) && tasks == old(tasks) && showCamera && dialog == old(dialog)
      ensures activeTab == old(activeTab) && seed == old(seed)
    {
      var payload := dialog.Save();
      saved := payload.Some?;
      if saved {
        SaveMeal(payload.value, id, now);
      }
    }

    /** The featured task of the dashboard: `tasks[0]` always exists, and
        its bar is never wider than 100, full exactly when the goal is met. */
    function FeaturedProgress(): (w: real)
      reads this
      requires TasksValid()
      ensures |tasks| > 0
      ensures w <= 100.0
      ensures w == 100.0 <==> tasks[0].currentValue >= tasks[0].targetValue
    {
      ProgressWidth(tasks[0].currentValue, tasks[0].targetValue)
    }

    /** The bars of the tasks tab, one per task in order. */
    function TaskWidths(): (ws: seq<real>)
      reads this
      requires TasksValid()
      ensures |ws| == |tasks|
      ensures forall i :: 0 <= i < |ws| ==>
        ws[i] <= 100.0 && (ws[i] == 100.0 <==> tasks[i].currentValue >= tasks[i].targetValue)
    {
      var ts := tasks;
      assert forall i :: 0 <= i < |ts| ==> ts[i].targetValue > 0.0;
      seq(|ts|, i requires 0 <= i < |ts| => ProgressWidth(ts[i].currentValue, ts[i].targetValue))
    }

    /** Today's totals shown on the dashboard. */
    function DashboardTotals(dayOf: int -> int, now: int): (tot: Totals)
      reads this
      ensures tot == Sum(TodayMeals(meals, dayOf, now))
    {
      TodayTotal(TodayMeals(meals, dayOf, now))
    }
  }

  /** A whole logging round: open the dialog, photograph the meal, receive
      the analysis, add a note and commit. The log then holds exactly that
      meal and the dialog is gone. */
  method LogMealScenario(photo: string, r: AnalysisResult, note: string, id: string, now: int)
    returns (saved: bool, logged: seq<Meal>, open: bool)
    ensures saved && !open
    ensures logged == [Meal(id, now, Lunch, Some(photo), r.foodName, r.nutrients, Some(note))]
  {
    var s := new Session(now);
    s.OpenCamera();
    s.dialog.HandleCapture(Some(photo));
    s.dialog.AnalysisSucceeded(r);
    s.dialog.EditNote(note);
    saved := s.CommitDialog(id, now);
    logged := s.meals;
    open := s.showCamera;
  }

  /** Closing the dialog discards its result: after reopening, the commit
      is disabled and the photo button is offered again. */
  method ReopenStartsFresh(photo: string, r: AnalysisResult, now: int)
    returns (canSave: bool, photoButton: bool, logged: seq<Meal>)
    ensures !canSave && photoButton && logged == []
  {
    var s := new Session(now);
    s.OpenCamera();
    s.dialog.HandleCapture(Some(photo));
    s.dialog.AnalysisSucceeded(r);
    s.CloseCamera();
    s.OpenCamera();
    canSave := s.dialog.CanSave();
    photoButton := s.dialog.ShowsPhotoButton();
    logged := s.meals;
  }
}
