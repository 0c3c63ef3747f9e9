/** The four per-user partitions (favourites, daily menu, weekly menu, shopping
    list) and their default-filling reads. A read never writes: the functions
    below take the stored map and return the value the planner works with. */
module Partitions {
  import opened Wrappers
  import opened Model

  type FavoritesMap = map<UserId, seq<RecipeId>>
  type DailyMap = map<UserId, MealRecord>
  type WeeklyMap = map<UserId, WeekRecord>
  type ShoppingMap = map<UserId, seq<ShoppingItem>>

  /** `getUserFavorites`: the stored list, or `[]` for a user without one. */
  function FavoritesOf(favorites: FavoritesMap, uid: UserId): (r: seq<RecipeId>)
    ensures uid in favorites ==> r == favorites[uid]
    ensures uid !in favorites ==> r == []
  {
    if uid in favorites then favorites[uid] else []
  }

  /** `getShoppingListForUser`: the stored list, or `[]` for a user without one. */
  function ShoppingListOf(shopping: ShoppingMap, uid: UserId): (r: seq<ShoppingItem>)
    ensures uid in shopping ==> r == shopping[uid]
    ensures uid !in shopping ==> r == []
  {
    if uid in shopping then shopping[uid] else []
  }

  /** `map[userId] || {}` for the daily partition. */
  function StoredRecord(daily: DailyMap, uid: UserId): MealRecord {
    if uid in daily then daily[uid] else map[]
  }

  /** `getDailyMenuForUser`: the stored record merged over the all-null record.
      All three meals are present; a stored key wins, a missing key is null. */
  function DailyMenuOf(daily: DailyMap, uid: UserId): (r: MealRecord)
    ensures forall m: Meal :: m in r
    ensures forall m: Meal :: r[m] == Slot(StoredRecord(daily, uid), m)
  {
    AllMealsInDefault();
    DefaultRecord + StoredRecord(daily, uid)
  }

  /** The all-null record under each of the seven days. */
  const DefaultWeek: WeekRecord := map d | d in DaysOfWeek :: DefaultRecord

  /** `map[userId] || {}` for the weekly partition. */
  function StoredWeek(weekly: WeeklyMap, uid: UserId): WeekRecord {
    if uid in weekly then weekly[uid] else map[]
  }

  /** `getWeeklyMenuForUser`: every one of the seven days is present; a stored day
      is returned as stored, a missing day is the all-null record. */
  function WeeklyMenuOf(weekly: WeeklyMap, uid: UserId): (r: WeekRecord)
    ensures forall d: Day :: d in r
    ensures forall d :: d in StoredWeek(weekly, uid) ==> r[d] == StoredWeek(weekly, uid)[d]
    ensures forall d :: d !in StoredWeek(weekly, uid) ==> r[d] == DefaultRecord
  {
    AllDaysListed();
    DefaultWeek + StoredWeek(weekly, uid)
  }

  /** The first loop of `getWeeklyMenuForUser`: an all-null record under each
      of the seven days. */
  method DefaultWeekBuilt() returns (base: WeekRecord)
    ensures forall d: Day :: d in base && base[d] == DefaultRecord
  {
    base := map[];
    for i := 0 to |DaysOfWeek|
      invariant forall d :: d in base <==> d in DaysOfWeek[..i]
      invariant forall d :: d in base ==> base[d] == DefaultRecord
    {
      base := base[DaysOfWeek[i] := DefaultRecord];
    }
    assert DaysOfWeek[..|DaysOfWeek|] == DaysOfWeek;
    AllDaysListed();
  }

  /** The second loop of `getWeeklyMenuForUser`: each day missing from the
      stored record is patched with an all-null record. */
  method FillMissingDays(stored: WeekRecord) returns (userMenu: WeekRecord)
    ensures forall d: Day :: d in userMenu
    ensures forall d :: d in stored ==> userMenu[d] == stored[d]
    ensures forall d :: d !in stored ==> userMenu[d] == DefaultRecord
  {
    userMenu := stored;
    for i := 0 to |DaysOfWeek|
      invariant forall d :: d in userMenu <==> d in stored || d in DaysOfWeek[..i]
      invariant forall d :: d in stored ==> userMenu[d] == stored[d]
      invariant forall d :: d in userMenu && d !in stored ==> userMenu[d] == DefaultRecord
    {
      var d := DaysOfWeek[i];
      if d !in userMenu {
        userMenu := userMenu[d := DefaultRecord];
      }
    }
    assert DaysOfWeek[..|DaysOfWeek|] == DaysOfWeek;
    AllDaysListed();
  }

  /** `getWeeklyMenuForUser` as the source runs it: build the all-null base, patch
      each missing day of the user's record with an all-null record, then merge
      the patched record over the base. Nothing is written back. */
  method GetWeeklyMenuForUser(weekly: WeeklyMap, uid: UserId) returns (menu: WeekRecord)
    ensures menu == WeeklyMenuOf(weekly, uid)
  {
    var base := DefaultWeekBuilt();
    var userMenu := FillMissingDays(StoredWeek(weekly, uid));
    menu := base + userMenu;
    SameWeek(menu, WeeklyMenuOf(weekly, uid));
  }

  /** Two records holding every day, with the same record under each, are equal. */
  lemma SameWeek(a: WeekRecord, b: WeekRecord)
    requires forall d: Day :: d in a && d in b && a[d] == b[d]
    ensures a == b
  {
    assert a.Keys == b.Keys;
  }

  /** Storing the value a daily read returned and reading again gives the same
      value: default filling is idempotent. */
  lemma DailyDefaultFillIdempotent(daily: DailyMap, uid: UserId)
    ensures DailyMenuOf(daily[uid := DailyMenuOf(daily, uid)], uid) == DailyMenuOf(daily, uid)
  {
  }

  /** Storing the value a weekly read returned and reading again gives the same
      seven days. */
  lemma WeeklyDefaultFillIdempotent(weekly: WeeklyMap, uid: UserId)
    ensures WeeklyMenuOf(weekly[uid := WeeklyMenuOf(weekly, uid)], uid) == WeeklyMenuOf(weekly, uid)
  {
  }

  /** A write to one user's entry leaves every other user's reads alone. */
  lemma WritesAreUserScoped(daily: DailyMap, weekly: WeeklyMap, u: UserId, v: UserId,
                            rec: MealRecord, week: WeekRecord)
    requires u != v
    ensures DailyMenuOf(daily[u := rec], v) == DailyMenuOf(daily, v)
    ensures WeeklyMenuOf(weekly[u := week], v) == WeeklyMenuOf(weekly, v)
  {
  }

  // ---------------------------------------------------------------------------
  // The slots of a menu, in the order the planner visits them
  // ---------------------------------------------------------------------------

  /** The three slots of a record: breakfast, lunch, dinner. */
  function RecordSlots(rec: MealRecord): (r: seq<Option<RecipeId>>)
    ensures |r| == 3 && forall k :: 0 <= k < 3 ==> r[k] == Slot(rec, Meals[k])
  {
    [Slot(rec, Breakfast), Slot(rec, Lunch), Slot(rec, Dinner)]
  }

  /** `weekly[day]`; after a weekly read every day is present. */
  function DayRecord(week: WeekRecord, d: Day): MealRecord {
    if d in week then week[d] else DefaultRecord
  }

  /** The slots of the first `n` days, day by day. */
  function WeekSlotsUpTo(week: WeekRecord, n: nat): (r: seq<Option<RecipeId>>)
    requires n <= |DaysOfWeek|
    ensures |r| == 3 * n
  {
    if n == 0 then [] else WeekSlotsUpTo(week, n - 1) + RecordSlots(DayRecord(week, DaysOfWeek[n - 1]))
  }

  /** The 21 slots of a week. */
  function WeekSlots(week: WeekRecord): seq<Option<RecipeId>> {
    WeekSlotsUpTo(week, |DaysOfWeek|)
  }

  /** The 24 slots aggregation looks at: the daily menu, then the week. */
  function MenuSlots(daily: MealRecord, week: WeekRecord): seq<Option<RecipeId>> {
    RecordSlots(daily) + WeekSlots(week)
  }

  /** Slot `3 * i + k` among the week's slots is meal `k` of day `i`. */
  lemma {:induction false} WeekSlotsAt(week: WeekRecord, n: nat, i: nat, k: nat)
    requires n <= |DaysOfWeek| && i < n && k < 3
    ensures WeekSlotsUpTo(week, n)[3 * i + k] == Slot(DayRecord(week, DaysOfWeek[i]), Meals[k])
  {
    if i < n - 1 {
      WeekSlotsAt(week, n - 1, i, k);
    }
  }
}
