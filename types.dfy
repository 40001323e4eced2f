/** The records and union types of the nutrition tracker (types.ts).
    JavaScript numbers that are only added and divided become `real`;
    timestamps in milliseconds become `int`. */
module Types {

  /** An optional field (`image?`, `description?`) or a nullable state value. */
  datatype Option<+T> = None | Some(value: T)

  /** Estimated nutrient content of one food item: kcal and grams. */
  datatype NutrientInfo = NutrientInfo(
    calories: real,
    protein: real,
    fat: real,
    carbs: real,
    weight: real)

  datatype MealType = Breakfast | Lunch | Dinner | Snack

  /** One logged eating event; never changed after it is created. */
  datatype Meal = Meal(
    id: string,
    timestamp: int,
    mealType: MealType,
    image: Option<string>,
    foodName: string,
    nutrients: NutrientInfo,
    description: Option<string>)

  datatype TaskType = Weekly | Monthly

  datatype TaskCategory = Calories | Protein | Veg | Water | Sugar

  /** A goal counter: progress `currentValue` towards `targetValue`. */
  datatype NutritionTask = NutritionTask(
    id: string,
    title: string,
    targetValue: real,
    currentValue: real,
    unit: string,
    deadline: int,
    taskType: TaskType,
    category: TaskCategory)

  datatype UserProfile = UserProfile(
    name: string,
    weight: real,
    height: real,
    goal: string,
    dailyCalorieTarget: real)

  datatype AppTab = Dashboard | Meals | Tasks | Profile

  /** Every tab, once each: the union has exactly four members. */
  function AllTabs(): (r: seq<AppTab>)
    ensures |r| == 4
    ensures forall i, j :: 0 <= i < j < |r| ==> r[i] != r[j]
  {
    [Dashboard, Meals, Tasks, Profile]
  }

  /** Every meal type, once each: the union has exactly four members. */
  function AllMealTypes(): (r: seq<MealType>)
    ensures |r| == 4
    ensures forall i, j :: 0 <= i < j < |r| ==> r[i] != r[j]
  {
    [Breakfast, Lunch, Dinner, Snack]
  }

  /** Every task category, once each: the union has exactly five members. */
  function AllCategories(): (r: seq<TaskCategory>)
    ensures |r| == 5
    ensures forall i, j :: 0 <= i < j < |r| ==> r[i] != r[j]
  {
    [Calories, Protein, Veg, Water, Sugar]
  }

  /** Every task period, once each: weekly or monthly. */
  function AllTaskTypes(): (r: seq<TaskType>)
    ensures |r| == 2 && r[0] != r[1]
  {
    [Weekly, Monthly]
  }

  /** No tab lies outside the listed four. */
  lemma AllTabsComplete(t: AppTab)
    ensures t in AllTabs()
  {
  }

  /** No meal type lies outside the listed four. */
  lemma AllMealTypesComplete(t: MealType)
    ensures t in AllMealTypes()
  {
  }

  /** No category lies outside the listed five. */
  lemma AllCategoriesComplete(c: TaskCategory)
    ensures c in AllCategories()
  {
  }

  /** No task period lies outside the listed two. */
  lemma AllTaskTypesComplete(t: TaskType)
    ensures t in AllTaskTypes()
  {
  }
}
