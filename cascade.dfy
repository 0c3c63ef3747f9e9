/** `deleteRecipe`: the recipe leaves the catalogue, and its id leaves every
    user's favourites and every daily and weekly slot of every user. */
module Cascade {
  import opened Wrappers
  import opened Model
  import opened Partitions
  import opened Favorites

  /** `recipes.filter(r => r.id !== id)`; `PurgeAppend` and `PurgeSingle` show
      that the remaining recipes keep their order. */
  function PurgeRecipes(recipes: seq<Recipe>, id: RecipeId): (r: seq<Recipe>)
    ensures id !in Ids(r)
    ensures forall i :: 0 <= i < |recipes| && recipes[i].id != id ==> recipes[i] in r
    ensures forall i :: 0 <= i < |r| ==> r[i] in recipes
    ensures id !in Ids(recipes) ==> r == recipes
  {
    if |recipes| == 0 then []
    else
      var front := recipes[..|recipes| - 1];
      var last := recipes[|recipes| - 1];
      assert recipes == front + [last];
      PurgeRecipes(front, id) + (if last.id == id then [] else [last])
  }

  /** Filtering a concatenation filters each part, in order. */
  lemma {:induction false} PurgeAppend(a: seq<Recipe>, b: seq<Recipe>, id: RecipeId)
    ensures PurgeRecipes(a + b, id) == PurgeRecipes(a, id) + PurgeRecipes(b, id)
    decreases |b|
  {
    if |b| == 0 {
      assert a + b == a;
    } else {
      var b', last := b[..|b| - 1], b[|b| - 1];
      var kept := if last.id == id then [] else [last];
      assert a + b == (a + b') + [last];
      assert b == b' + [last];
      calc {
        PurgeRecipes(a + b, id);
      == { PurgeSnoc(a + b', last, id); }
        PurgeRecipes(a + b', id) + kept;
      == { PurgeAppend(a, b', id); }
        PurgeRecipes(a, id) + PurgeRecipes(b', id) + kept;
      == { PurgeSnoc(b', last, id); }
        PurgeRecipes(a, id) + PurgeRecipes(b, id);
      }
    }
  }

  /** One more recipe at the end is kept at the end, unless it has the id. */
  lemma PurgeSnoc(s: seq<Recipe>, x: Recipe, id: RecipeId)
    ensures PurgeRecipes(s + [x], id) == PurgeRecipes(s, id) + (if x.id == id then [] else [x])
  {
    assert (s + [x])[..|s|] == s;
  }

  /** A one-recipe catalogue keeps its recipe exactly when it has another id. */
  lemma PurgeSingle(x: Recipe, id: RecipeId)
    ensures PurgeRecipes([x], id) == if x.id == id then [] else [x]
  {
    assert [x][..0] == [];
  }

  /** The recipes kept from any prefix of the catalogue are a prefix of the
      recipes kept from the whole: the delete never reorders. */
  lemma PurgePrefix(recipes: seq<Recipe>, id: RecipeId, k: nat)
    requires k <= |recipes|
    ensures PurgeRecipes(recipes[..k], id) <= PurgeRecipes(recipes, id)
  {
    assert recipes == recipes[..k] + recipes[k..];
    PurgeAppend(recipes[..k], recipes[k..], id);
  }

  /** A record with every slot equal to `id` set to null; every other slot as it was. */
  function Cleared(rec: MealRecord, id: RecipeId): (r: MealRecord)
    ensures r.Keys == rec.Keys
    ensures forall m :: m in r ==> r[m] != Some(id)
    ensures forall m :: m in rec && rec[m] != Some(id) ==> r[m] == rec[m]
    ensures forall m :: m in rec && rec[m] == Some(id) ==> r[m] == None
  {
    map m | m in rec :: if rec[m] == Some(id) then None else rec[m]
  }

  /** A weekly record with `id` cleared from the stored days. */
  function ClearedWeek(week: WeekRecord, id: RecipeId): (r: WeekRecord)
    ensures r.Keys == week.Keys
    ensures forall d :: d in week ==> r[d] == Cleared(week[d], id)
  {
    map d | d in week :: Cleared(week[d], id)
  }

  /** The meal loop of `deleteRecipe` over one stored record. */
  method ClearRecord(rec: MealRecord, id: RecipeId) returns (r: MealRecord)
    ensures r == Cleared(rec, id)
  {
    r := rec;
    for i := 0 to |Meals|
      invariant r.Keys == rec.Keys
      invariant forall m :: m in rec && m in Meals[..i] ==> r[m] == Cleared(rec, id)[m]
      invariant forall m :: m in rec && m !in Meals[..i] ==> r[m] == rec[m]
    {
      var meal := Meals[i];
      if meal in r && r[meal] == Some(id) {
        r := r[meal := None];
      }
    }
    AllMealsListed();
    assert Meals[..|Meals|] == Meals;
  }

  /** The day and meal loops of `deleteRecipe` over one stored weekly record: only
      the days that are stored are visited. */
  method ClearWeek(week: WeekRecord, id: RecipeId) returns (r: WeekRecord)
    ensures r == ClearedWeek(week, id)
  {
    r := week;
    for i := 0 to |DaysOfWeek|
      invariant r.Keys == week.Keys
      invariant forall d :: d in week && d in DaysOfWeek[..i] ==> r[d] == Cleared(week[d], id)
      invariant forall d :: d in week && d !in DaysOfWeek[..i] ==> r[d] == week[d]
    {
      var day := DaysOfWeek[i];
      assert DaysOfWeek[..i + 1] == DaysOfWeek[..i] + [day];
      if day in r {
        var cleared := ClearRecord(r[day], id);
        r := r[day := cleared];
      }
    }
    AllDaysListed();
    assert DaysOfWeek[..|DaysOfWeek|] == DaysOfWeek;
  }

  function PurgeFavorites(favorites: FavoritesMap, id: RecipeId): (r: FavoritesMap)
    ensures r.Keys == favorites.Keys
    ensures forall u :: u in favorites ==> r[u] == Without(favorites[u], id)
  {
    map u | u in favorites :: Without(favorites[u], id)
  }

  function PurgeDaily(daily: DailyMap, id: RecipeId): (r: DailyMap)
    ensures r.Keys == daily.Keys
    ensures forall u :: u in daily ==> r[u] == Cleared(daily[u], id)
  {
    map u | u in daily :: Cleared(daily[u], id)
  }

  function PurgeWeekly(weekly: WeeklyMap, id: RecipeId): (r: WeeklyMap)
    ensures r.Keys == weekly.Keys
    ensures forall u :: u in weekly ==> r[u] == ClearedWeek(weekly[u], id)
  {
    map u | u in weekly :: ClearedWeek(weekly[u], id)
  }

  // ---------------------------------------------------------------------------
  // The sweeps over every user. `Object.keys` visits the users in insertion
  // order; each visit touches only its own user's entry, so any order gives the
  // same maps, and the loops below pick the users in no particular order.
  // ---------------------------------------------------------------------------

  /** `Object.keys(favMap).forEach(uid => { favMap[uid] = favMap[uid].filter(…) })`. */
  method SweepFavorites(favorites: FavoritesMap, id: RecipeId) returns (r: FavoritesMap)
    ensures r == PurgeFavorites(favorites, id)
  {
    r := favorites;
    var todo := favorites.Keys;
    while todo != {}
      invariant todo <= favorites.Keys == r.Keys
      invariant forall u :: u in favorites && u !in todo ==> r[u] == Without(favorites[u], id)
      invariant forall u :: u in todo ==> r[u] == favorites[u]
      decreases todo
    {
      var u :| u in todo;
      r := r[u := Without(r[u], id)];
      todo := todo - {u};
    }
  }

  /** The user loop of `deleteRecipe` over the daily partition. */
  method SweepDaily(daily: DailyMap, id: RecipeId) returns (r: DailyMap)
    ensures r == PurgeDaily(daily, id)
  {
    r := daily;
    var todo := daily.Keys;
    while todo != {}
      invariant todo <= daily.Keys == r.Keys
      invariant forall u :: u in daily && u !in todo ==> r[u] == Cleared(daily[u], id)
      invariant forall u :: u in todo ==> r[u] == daily[u]
      decreases todo
    {
      var u :| u in todo;
      var cleared := ClearRecord(r[u], id);
      r := r[u := cleared];
      todo := todo - {u};
    }
  }

  /** The user loop of `deleteRecipe` over the weekly partition. */
  method SweepWeekly(weekly: WeeklyMap, id: RecipeId) returns (r: WeeklyMap)
    ensures r == PurgeWeekly(weekly, id)
  {
    r := weekly;
    var todo := weekly.Keys;
    while todo != {}
      invariant todo <= weekly.Keys == r.Keys
      invariant forall u :: u in weekly && u !in todo ==> r[u] == ClearedWeek(weekly[u], id)
      invariant forall u :: u in todo ==> r[u] == weekly[u]
      decreases todo
    {
      var u :| u in todo;
      var cleared := ClearWeek(r[u], id);
      r := r[u := cleared];
      todo := todo - {u};
    }
  }

  /** Filtering the catalogue keeps its ids distinct. */
  lemma UniqueIdsSnoc(p: seq<Recipe>, x: Recipe)
    requires UniqueIds(p)
    requires forall i :: 0 <= i < |p| ==> p[i].id != x.id
    ensures UniqueIds(p + [x])
  {
  }

  lemma {:induction false} PurgeKeepsUniqueIds(recipes: seq<Recipe>, id: RecipeId)
    requires UniqueIds(recipes)
    ensures UniqueIds(PurgeRecipes(recipes, id))
  {
    if |recipes| > 0 {
      var front := recipes[..|recipes| - 1];
      var last := recipes[|recipes| - 1];
      PurgeKeepsUniqueIds(front, id);
      var p := PurgeRecipes(front, id);
      forall i | 0 <= i < |p| ensures p[i].id != last.id {
        var k :| 0 <= k < |front| && front[k] == p[i];
        assert recipes[k] == front[k];
      }
      if last.id != id {
        assert PurgeRecipes(recipes, id) == p + [last];
        UniqueIdsSnoc(p, last);
      }
    }
  }

  /** `id` is some user's favourite. */
  predicate FavoritesMention(favorites: FavoritesMap, id: RecipeId) {
    exists u :: u in favorites && id in favorites[u]
  }

  /** `id` sits in some user's daily slot. */
  predicate DailyMentions(daily: DailyMap, id: RecipeId) {
    exists u, m :: u in daily && m in daily[u] && daily[u][m] == Some(id)
  }

  /** `id` sits in some slot of some day of some user's week. */
  predicate WeeklyMentions(weekly: WeeklyMap, id: RecipeId) {
    exists u, d, m :: u in weekly && d in weekly[u] && m in weekly[u][d] && weekly[u][d][m] == Some(id)
  }

  /** After the cascade the deleted id is nowhere: not in the catalogue, not in any
      user's favourites, not in any daily or weekly slot of any user. */
  lemma CascadeComplete(recipes: seq<Recipe>, favorites: FavoritesMap, daily: DailyMap,
                        weekly: WeeklyMap, id: RecipeId)
    ensures id !in Ids(PurgeRecipes(recipes, id))
    ensures !FavoritesMention(PurgeFavorites(favorites, id), id)
    ensures !DailyMentions(PurgeDaily(daily, id), id)
    ensures !WeeklyMentions(PurgeWeekly(weekly, id), id)
  {
  }

  /** Every other reference survives the cascade: other recipes and other
      favourites keep their counts and their order (what survives of a prefix is
      a prefix of what survives), and a slot holding another id (or null) still
      holds it. */
  lemma CascadeKeepsOthers(recipes: seq<Recipe>, favorites: FavoritesMap, daily: DailyMap,
                           weekly: WeeklyMap, id: RecipeId, x: RecipeId)
    requires x != id
    ensures forall k :: 0 <= k <= |recipes| ==> PurgeRecipes(recipes[..k], id) <= PurgeRecipes(recipes, id)
    ensures forall u :: u in favorites ==>
      multiset(PurgeFavorites(favorites, id)[u])[x] == multiset(favorites[u])[x]
    ensures forall u, k :: u in favorites && 0 <= k <= |favorites[u]| ==>
      Without(favorites[u][..k], id) <= PurgeFavorites(favorites, id)[u]
    ensures forall u, m :: u in daily && m in daily[u] && daily[u][m] != Some(id) ==>
      PurgeDaily(daily, id)[u][m] == daily[u][m]
    ensures forall u, d, m :: u in weekly && d in weekly[u] && m in weekly[u][d] && weekly[u][d][m] != Some(id) ==>
      PurgeWeekly(weekly, id)[u][d][m] == weekly[u][d][m]
  {
    forall k | 0 <= k <= |recipes| ensures PurgeRecipes(recipes[..k], id) <= PurgeRecipes(recipes, id) {
      PurgePrefix(recipes, id, k);
    }
    forall u, k | u in favorites && 0 <= k <= |favorites[u]|
      ensures Without(favorites[u][..k], id) <= PurgeFavorites(favorites, id)[u]
    {
      WithoutPrefix(favorites[u], id, k);
    }
  }

  /** A stored slot is null or names a catalogue recipe. */
  predicate Resolves(recipes: seq<Recipe>, v: Option<RecipeId>) {
    v.None? || v.value in Ids(recipes)
  }

  /** Every favourite and every stored slot names a catalogue recipe or is null. */
  predicate ReferencesResolve(recipes: seq<Recipe>, favorites: FavoritesMap, daily: DailyMap, weekly: WeeklyMap) {
    && (forall u, x :: u in favorites && x in favorites[u] ==> x in Ids(recipes))
    && (forall u, m :: u in daily && m in daily[u] ==> Resolves(recipes, daily[u][m]))
    && (forall u, d, m :: u in weekly && d in weekly[u] && m in weekly[u][d] ==> Resolves(recipes, weekly[u][d][m]))
  }

  /** Deleting a recipe never leaves a dangling reference behind. */
  lemma CascadePreservesResolution(recipes: seq<Recipe>, favorites: FavoritesMap, daily: DailyMap,
                                   weekly: WeeklyMap, id: RecipeId)
    requires ReferencesResolve(recipes, favorites, daily, weekly)
    ensures ReferencesResolve(PurgeRecipes(recipes, id), PurgeFavorites(favorites, id),
                              PurgeDaily(daily, id), PurgeWeekly(weekly, id))
  {
    var rs := PurgeRecipes(recipes, id);
    forall x | x in Ids(recipes) && x != id
      ensures x in Ids(rs)
    {
      var i :| 0 <= i < |recipes| && recipes[i].id == x;
      assert recipes[i] in rs;
    }
    var f := PurgeFavorites(favorites, id);
    forall u, x | u in f && x in f[u]
      ensures x in Ids(rs)
    {
      assert multiset(f[u])[x] == multiset(favorites[u])[x];
    }
    var dl := PurgeDaily(daily, id);
    forall u | u in dl
      ensures forall m :: m in dl[u] ==> Resolves(rs, dl[u][m])
    {
      ClearedResolves(recipes, rs, daily[u], id);
    }
    var wk := PurgeWeekly(weekly, id);
    forall u, d | u in wk && d in wk[u]
      ensures forall m :: m in wk[u][d] ==> Resolves(rs, wk[u][d][m])
    {
      ClearedResolves(recipes, rs, weekly[u][d], id);
    }
  }

  /** A cleared record names only recipes that survive the delete. */
  lemma ClearedResolves(recipes: seq<Recipe>, rs: seq<Recipe>, rec: MealRecord, id: RecipeId)
    requires forall m :: m in rec ==> Resolves(recipes, rec[m])
    requires forall x :: x in Ids(recipes) && x != id ==> x in Ids(rs)
    ensures forall m :: m in Cleared(rec, id) ==> Resolves(rs, Cleared(rec, id)[m])
  {
  }
}
