/** The planner's entities: recipes, users, meal slots, the seven days of the
    week and shopping items, and lookup of a recipe by id. */
module Model {
  import opened Wrappers

  /** Ids are opaque strings; the empty string is falsy and counts as "no id". */
  type RecipeId = string
  type UserId = string

  /** The mutable fields of a recipe. Numbers are `None` where the stored value is
      `null` (absent or non-numeric input). */
  datatype RecipeBody = RecipeBody(
    title: string,
    category: string,
    cookTime: Option<int>,
    servings: Option<int>,
    caloriesPerServing: Option<int>,
    description: string,
    ingredients: seq<string>,
    steps: seq<string>)

  /** A catalogue entry: an id fixed at creation and the fields an edit replaces. */
  datatype Recipe = Recipe(id: RecipeId, body: RecipeBody)

  /** A user record without its credential. */
  datatype User = User(id: UserId, username: string, email: string)

  datatype Meal = Breakfast | Lunch | Dinner

  /** The order in which every loop of the planner visits the meal keys
      `breakfastId`, `lunchId`, `dinnerId`. */
  const Meals: seq<Meal> := [Breakfast, Lunch, Dinner]

  /** Every meal is one of `Meals`. */
  lemma AllMealsListed()
    ensures forall m: Meal :: m in Meals
  {
    forall m: Meal ensures m in Meals {
      match m
      case Breakfast => assert Meals[0] == m;
      case Lunch => assert Meals[1] == m;
      case Dinner => assert Meals[2] == m;
    }
  }

  datatype Day = Mon | Tue | Wed | Thu | Fri | Sat | Sun

  /** `DAYS_OF_WEEK`, in its order. */
  const DaysOfWeek: seq<Day> := [Mon, Tue, Wed, Thu, Fri, Sat, Sun]

  /** Every day of the week is one of `DaysOfWeek`. */
  lemma AllDaysListed()
    ensures forall d: Day :: d in DaysOfWeek
  {
    forall d: Day ensures d in DaysOfWeek {
      match d
      case Mon => assert DaysOfWeek[0] == d;
      case Tue => assert DaysOfWeek[1] == d;
      case Wed => assert DaysOfWeek[2] == d;
      case Thu => assert DaysOfWeek[3] == d;
      case Fri => assert DaysOfWeek[4] == d;
      case Sat => assert DaysOfWeek[5] == d;
      case Sun => assert DaysOfWeek[6] == d;
    }
  }

  /** The label under which a day is stored. */
  function DayLabel(d: Day): (r: string)
    ensures |r| == 2
  {
    match d
    case Mon => "Пн"
    case Tue => "Вт"
    case Wed => "Ср"
    case Thu => "Чт"
    case Fri => "Пт"
    case Sat => "Сб"
    case Sun => "Нд"
  }

  /** A stored breakfast/lunch/dinner object. A key may be missing, since what is
      stored is whatever was last written; a missing key reads as `undefined`. */
  type MealRecord = map<Meal, Option<RecipeId>>

  /** A stored weekly menu: day to meal record (days may be missing). */
  type WeekRecord = map<Day, MealRecord>

  datatype ShoppingItem = ShoppingItem(text: string, checked: bool)

  /** `{ breakfastId: null, lunchId: null, dinnerId: null }`. */
  const DefaultRecord: MealRecord := map[Breakfast := None, Lunch := None, Dinner := None]

  /** The all-null record has every meal key. */
  lemma AllMealsInDefault()
    ensures forall m: Meal :: m in DefaultRecord
  {
    forall m: Meal ensures m in DefaultRecord {
      match m
      case Breakfast =>
      case Lunch =>
      case Dinner =>
    }
  }

  /** `record[meal]`, where a missing key is `undefined` and acts like `null`. */
  function Slot(rec: MealRecord, m: Meal): Option<RecipeId> {
    if m in rec then rec[m] else None
  }

  /** A slot value JavaScript treats as truthy: a non-empty id. */
  predicate Filled(v: Option<RecipeId>) {
    v.Some? && v.value != ""
  }

  /** A stored number JavaScript treats as truthy: present (not `null`) and not zero. */
  predicate Truthy(n: Option<int>) {
    n.Some? && n.value != 0
  }

  /** `recipes.findIndex(r => r.id === id)`: the first index holding `id`, or -1. */
  function FindIndex(recipes: seq<Recipe>, id: RecipeId): (k: int)
    ensures -1 <= k < |recipes|
    ensures k == -1 <==> forall i :: 0 <= i < |recipes| ==> recipes[i].id != id
    ensures k >= 0 ==> recipes[k].id == id && forall i :: 0 <= i < k ==> recipes[i].id != id
  {
    if |recipes| == 0 then -1
    else if recipes[0].id == id then 0
    else
      var k := FindIndex(recipes[1..], id);
      if k == -1 then -1 else k + 1
  }

  /** `recipes.find(r => r.id === id)`. */
  function Find(recipes: seq<Recipe>, id: RecipeId): (r: Option<Recipe>)
    ensures r.None? <==> forall i :: 0 <= i < |recipes| ==> recipes[i].id != id
    ensures r.Some? ==> r.value.id == id && exists i :: 0 <= i < |recipes| && recipes[i] == r.value
    ensures r.Some? ==> r.value == recipes[FindIndex(recipes, id)]
  {
    var k := FindIndex(recipes, id);
    if k == -1 then None else Some(recipes[k])
  }

  /** No two catalogue recipes share an id. */
  predicate UniqueIds(recipes: seq<Recipe>) {
    forall i, j :: 0 <= i < j < |recipes| ==> recipes[i].id != recipes[j].id
  }

  /** The ids of the catalogue. */
  function Ids(recipes: seq<Recipe>): (r: set<RecipeId>)
    ensures forall id :: id in r <==> exists i :: 0 <= i < |recipes| && recipes[i].id == id
  {
    set i | 0 <= i < |recipes| :: recipes[i].id
  }
}
