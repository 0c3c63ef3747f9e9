/** `recalcCaloriesInfo`: the calories per serving of the recipes in the
    current user's daily menu and in their weekly menu, summed slot by slot. */
module Calories {
  import opened Wrappers
  import opened Model
  import opened Partitions

  /** What one slot adds: the calories of the recipe it names, or 0 when the slot
      is empty, names no catalogue recipe, or names one whose calories are null
      or zero. */
  function SlotCalories(recipes: seq<Recipe>, v: Option<RecipeId>): (c: int)
    ensures c != 0 ==> Filled(v) && Find(recipes, v.value).Some?
    ensures Filled(v) && Find(recipes, v.value).Some? && Truthy(Find(recipes, v.value).value.body.caloriesPerServing)
            ==> c == Find(recipes, v.value).value.body.caloriesPerServing.value
    ensures c == 0 <==> !Filled(v) || Find(recipes, v.value).None?
                        || !Truthy(Find(recipes, v.value).value.body.caloriesPerServing)
  {
    if !Filled(v) then 0
    else match Find(recipes, v.value)
      case None => 0
      case Some(r) => if Truthy(r.body.caloriesPerServing) then r.body.caloriesPerServing.value else 0
  }

  /** The calories of a run of slots. */
  function SumSlots(recipes: seq<Recipe>, slots: seq<Option<RecipeId>>): int {
    if slots == [] then 0
    else SumSlots(recipes, slots[..|slots| - 1]) + SlotCalories(recipes, slots[|slots| - 1])
  }

  /** The sum over two runs of slots is the sum of their sums. */
  lemma {:induction false} SumSlotsAppend(recipes: seq<Recipe>, a: seq<Option<RecipeId>>,
                                           b: seq<Option<RecipeId>>)
    ensures SumSlots(recipes, a + b) == SumSlots(recipes, a) + SumSlots(recipes, b)
  {
    if b == [] {
      assert a + b == a;
    } else {
      assert (a + b)[..|a + b| - 1] == a + b[..|b| - 1];
      SumSlotsAppend(recipes, a, b[..|b| - 1]);
    }
  }

  /** The daily figure: the three slots of the default-filled daily menu. */
  function DailyCalories(recipes: seq<Recipe>, daily: DailyMap, uid: UserId): int {
    SumSlots(recipes, RecordSlots(DailyMenuOf(daily, uid)))
  }

  /** The weekly figure: the 21 slots of the default-filled weekly menu. */
  function WeeklyCalories(recipes: seq<Recipe>, weekly: WeeklyMap, uid: UserId): int {
    SumSlots(recipes, WeekSlots(WeeklyMenuOf(weekly, uid)))
  }

  /** The accumulator loop over the meals of one record. */
  method SumRecord(recipes: seq<Recipe>, rec: MealRecord) returns (sum: int)
    ensures sum == SumSlots(recipes, RecordSlots(rec))
  {
    sum := 0;
    for k := 0 to |Meals|
      invariant sum == SumSlots(recipes, RecordSlots(rec)[..k])
    {
      var id := Slot(rec, Meals[k]);
      assert RecordSlots(rec)[..k + 1][..k] == RecordSlots(rec)[..k];
      if !Filled(id) {
        continue;
      }
      var r := Find(recipes, id.value);
      if r.Some? && Truthy(r.value.body.caloriesPerServing) {
        sum := sum + r.value.body.caloriesPerServing.value;
      }
    }
    assert RecordSlots(rec)[..3] == RecordSlots(rec);
  }

  /** `recalcCaloriesInfo`'s two accumulators: `sumDaily` over the daily menu and
      `sumWeekly` over every day of the weekly menu. The text each figure is shown
      with is left to the page. */
  method RecalcCalories(recipes: seq<Recipe>, daily: DailyMap, weekly: WeeklyMap, uid: UserId)
    returns (sumDaily: int, sumWeekly: int)
    ensures sumDaily == DailyCalories(recipes, daily, uid)
    ensures sumWeekly == WeeklyCalories(recipes, weekly, uid)
  {
    sumDaily := SumRecord(recipes, DailyMenuOf(daily, uid));
    var week := WeeklyMenuOf(weekly, uid);
    sumWeekly := 0;
    for i := 0 to |DaysOfWeek|
      invariant sumWeekly == SumSlots(recipes, WeekSlotsUpTo(week, i))
    {
      var dm := week[DaysOfWeek[i]];
      var s := SumRecord(recipes, dm);
      SumSlotsAppend(recipes, WeekSlotsUpTo(week, i), RecordSlots(dm));
      sumWeekly := sumWeekly + s;
    }
  }

  /** A recipe sitting in every slot of a run counts once per slot. */
  lemma {:induction false} SumOfRepeated(recipes: seq<Recipe>, slots: seq<Option<RecipeId>>,
                                          v: Option<RecipeId>)
    requires forall k :: 0 <= k < |slots| ==> slots[k] == v
    ensures SumSlots(recipes, slots) == |slots| * SlotCalories(recipes, v)
  {
    if slots != [] {
      SumOfRepeated(recipes, slots[..|slots| - 1], v);
    }
  }

  /** Empty slots, unknown ids and recipes without calories add nothing. */
  lemma {:induction false} SumOfNothing(recipes: seq<Recipe>, slots: seq<Option<RecipeId>>)
    requires forall k :: 0 <= k < |slots| ==> SlotCalories(recipes, slots[k]) == 0
    ensures SumSlots(recipes, slots) == 0
  {
    if slots != [] {
      SumOfNothing(recipes, slots[..|slots| - 1]);
    }
  }

  /** With recipes whose calories are never negative, the sum is never negative
      and never less than what any single slot adds. */
  lemma {:induction false} SumBoundsSlot(recipes: seq<Recipe>, slots: seq<Option<RecipeId>>, k: nat)
    requires forall i :: 0 <= i < |recipes| ==> !Truthy(recipes[i].body.caloriesPerServing)
                                                 || recipes[i].body.caloriesPerServing.value > 0
    requires k < |slots|
    ensures SumSlots(recipes, slots) >= SlotCalories(recipes, slots[k]) >= 0
  {
    var n := |slots| - 1;
    assert SumSlots(recipes, slots) == SumSlots(recipes, slots[..n]) + SlotCalories(recipes, slots[n]);
    SlotNonNegative(recipes, slots[n]);
    SlotNonNegative(recipes, slots[k]);
    if k < n {
      assert slots[..n][k] == slots[k];
      SumBoundsSlot(recipes, slots[..n], k);
    } else {
      assert k == n;
      SumNonNegative(recipes, slots[..n]);
    }
  }

  lemma {:induction false} SumNonNegative(recipes: seq<Recipe>, slots: seq<Option<RecipeId>>)
    requires forall i :: 0 <= i < |recipes| ==> !Truthy(recipes[i].body.caloriesPerServing)
                                                 || recipes[i].body.caloriesPerServing.value > 0
    ensures SumSlots(recipes, slots) >= 0
  {
    if slots != [] {
      SumNonNegative(recipes, slots[..|slots| - 1]);
      SlotNonNegative(recipes, slots[|slots| - 1]);
    }
  }

  lemma SlotNonNegative(recipes: seq<Recipe>, v: Option<RecipeId>)
    requires forall i :: 0 <= i < |recipes| ==> !Truthy(recipes[i].body.caloriesPerServing)
                                                 || recipes[i].body.caloriesPerServing.value > 0
    ensures SlotCalories(recipes, v) >= 0
  {
    if Filled(v) && Find(recipes, v.value).Some? {
      var i :| 0 <= i < |recipes| && recipes[i] == Find(recipes, v.value).value;
    }
  }

  /** One recipe in all 21 weekly slots counts 21 times: unlike the shopping
      list, the calorie sum does not merge repeated recipes. */
  lemma WeekOfOneRecipe(recipes: seq<Recipe>, weekly: WeeklyMap, uid: UserId, id: RecipeId)
    requires forall d: Day, m: Meal :: Slot(WeeklyMenuOf(weekly, uid)[d], m) == Some(id)
    ensures WeeklyCalories(recipes, weekly, uid) == 21 * SlotCalories(recipes, Some(id))
  {
    var week := WeeklyMenuOf(weekly, uid);
    var slots := WeekSlots(week);
    forall k | 0 <= k < |slots| ensures slots[k] == Some(id) {
      WeekSlotsAt(week, |DaysOfWeek|, k / 3, k % 3);
      assert k == 3 * (k / 3) + k % 3;
    }
    SumOfRepeated(recipes, slots, Some(id));
  }
}
