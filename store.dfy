/** The planner's storage: the catalogue, the user list and the four per-user
    partitions, held in one object whose operations replace what they change,
    as each `save…` call of the page replaces one stored key. */
module Store {
  import opened Wrappers
  import opened Text
  import opened Model
  import opened Partitions
  import opened Favorites
  import opened Cascade
  import opened MealLabel
  import opened Shopping
  import opened RecipeForm
  import opened PlainText
  import opened Users

  class Store {
    var recipes: seq<Recipe>
    var users: seq<User>
    var favorites: FavoritesMap
    var daily: DailyMap
    var weekly: WeeklyMap
    var shopping: ShoppingMap

    /** No two recipes share an id. Each invariant reads only its own key, so
        a write to another key keeps it. */
    ghost predicate CatalogueValid()
      reads this`recipes
    {
      UniqueIds(recipes)
    }

    /** No two users share an id, a name or a non-empty e-mail address. */
    ghost predicate UsersValid()
      reads this`users
    {
      DistinctUsers(users)
    }

    /** Empty storage: every key absent. */
    constructor ()
      ensures CatalogueValid() && UsersValid()
      ensures recipes == [] && users == []
      ensures favorites == map[] && daily == map[] && weekly == map[] && shopping == map[]
    {
      recipes, users := [], [];
      favorites, daily, weekly, shopping := map[], map[], map[], map[];
    }

    // -------------------------------------------------------------------------
    // Users
    // -------------------------------------------------------------------------

    /** `ensureGuestUser`: the account named `guest`, appended under `freshId`
        when there is none. */
    method EnsureGuestUser(freshId: UserId) returns (guest: User)
      requires UsersValid() && FreshUserId(users, freshId)
      modifies this`users
      ensures UsersValid()
      ensures guest.username == GuestUsername && guest in users
      ensures users == WithGuest(old(users), freshId)
      ensures guest == GuestOf(old(users), freshId)
    {
      WithGuestKeepsDistinct(users, freshId);
      var found := FindByName(users, GuestUsername);
      if found.Some? {
        guest := found.value;
      } else {
        guest := User(freshId, GuestUsername, "");
        users := users + [guest];
      }
    }

    /** `handleRegister` without its page updates: the checks in their order,
        then the new account appended. */
    method Register(username: string, email: string, password: string, freshId: UserId)
      returns (outcome: Registration)
      requires UsersValid() && FreshUserId(users, freshId)
      modifies this`users
      ensures UsersValid()
      ensures outcome == RegisterOutcome(old(users), username, email, password)
      ensures users == Registering(old(users), username, email, password, freshId)
      ensures outcome != Registered ==> users == old(users)
    {
      RegisterKeepsDistinct(users, username, email, password, freshId);
      outcome := RegisterOutcome(users, username, email, password);
      if outcome == Registered {
        users := users + [User(freshId, Trim(username), Trim(email))];
      }
    }

    // -------------------------------------------------------------------------
    // The per-user writes
    // -------------------------------------------------------------------------

    /** `setUserFavorites`. */
    method SetUserFavorites(uid: UserId, favs: seq<RecipeId>)
      modifies this`favorites
      ensures favorites == old(favorites)[uid := favs]
      ensures FavoritesOf(favorites, uid) == favs
    {
      favorites := favorites[uid := favs];
    }

    /** `setDailyMenuForUser`: the record is stored as given. */
    method SetDailyMenu(uid: UserId, rec: MealRecord)
      modifies this`daily
      ensures daily == old(daily)[uid := rec]
      ensures forall m :: DailyMenuOf(daily, uid)[m] == Slot(rec, m)
    {
      daily := daily[uid := rec];
    }

    /** `setWeeklyMenuForUser`: the week is stored as given. */
    method SetWeeklyMenu(uid: UserId, week: WeekRecord)
      modifies this`weekly
      ensures weekly == old(weekly)[uid := week]
      ensures forall d :: d in week ==> WeeklyMenuOf(weekly, uid)[d] == week[d]
    {
      weekly := weekly[uid := week];
    }

    /** `setShoppingListForUser`. */
    method SetShoppingList(uid: UserId, list: seq<ShoppingItem>)
      modifies this`shopping
      ensures shopping == old(shopping)[uid := list]
      ensures ShoppingListOf(shopping, uid) == list
    {
      shopping := shopping[uid := list];
    }

    // -------------------------------------------------------------------------
    // Recipes
    // -------------------------------------------------------------------------

    /** `handleRecipeFormSubmit` with the form's field values as input: a
        rejected form saves nothing; an accepted one replaces the fields of the
        recipe with the form's id (or nothing, when no recipe has it) or appends
        a new recipe under `freshId`. */
    method SubmitRecipeForm(f: FormInput, freshId: RecipeId) returns (saved: bool)
      requires CatalogueValid() && freshId != "" && freshId !in Ids(recipes)
      modifies this`recipes
      ensures CatalogueValid()
      ensures Submitted(old(recipes), f, freshId) == if saved then Some(recipes) else None
      ensures !saved ==> recipes == old(recipes)
    {
      var result := SubmitRecipe(recipes, f, freshId);
      saved := result.Some?;
      if saved {
        UpsertKeepsIdsUnique(recipes, f.id, FormBody(f).value, freshId);
        recipes := result.value;
      }
    }

    /** The reading side of `handleImportRecipeFile`: the text is parsed, a
        record without title or category is rejected, and an accepted one is
        appended under `freshId`. */
    method ImportRecipe(text: string, freshId: RecipeId) returns (imported: bool)
      requires CatalogueValid() && freshId != "" && freshId !in Ids(recipes)
      modifies this`recipes
      ensures CatalogueValid()
      ensures imported == Importable(ParsedBody(text))
      ensures imported ==> recipes == old(recipes) + [Recipe(freshId, ParsedBody(text))]
      ensures !imported ==> recipes == old(recipes)
    {
      var body := ParseRecipeFromTxt(text);
      imported := Importable(body);
      if !imported {
        return;
      }
      UpsertKeepsIdsUnique(recipes, "", body, freshId);
      recipes := recipes + [Recipe(freshId, body)];
    }

    /** `deleteRecipe`: the recipe leaves the catalogue and its id is swept out
        of every user's favourites and every stored daily and weekly slot. */
    method DeleteRecipe(id: RecipeId)
      requires CatalogueValid()
      modifies this`recipes, this`favorites, this`daily, this`weekly
      ensures CatalogueValid()
      ensures recipes == PurgeRecipes(old(recipes), id)
      ensures forall k :: 0 <= k <= |old(recipes)| ==> PurgeRecipes(old(recipes)[..k], id) <= recipes
      ensures favorites == PurgeFavorites(old(favorites), id)
      ensures daily == PurgeDaily(old(daily), id)
      ensures weekly == PurgeWeekly(old(weekly), id)
      ensures id !in Ids(recipes)
      ensures !FavoritesMention(favorites, id) && !DailyMentions(daily, id) && !WeeklyMentions(weekly, id)
      ensures ReferencesResolve(old(recipes), old(favorites), old(daily), old(weekly))
              ==> ReferencesResolve(recipes, favorites, daily, weekly)
    {
      PurgeKeepsUniqueIds(recipes, id);
      forall k | 0 <= k <= |recipes| ensures PurgeRecipes(recipes[..k], id) <= PurgeRecipes(recipes, id) {
        PurgePrefix(recipes, id, k);
      }
      CascadeComplete(recipes, favorites, daily, weekly, id);
      if ReferencesResolve(recipes, favorites, daily, weekly) {
        CascadePreservesResolution(recipes, favorites, daily, weekly, id);
      }
      assert forall r :: r in PurgeRecipes(recipes, id) ==> r in recipes;
      recipes := PurgeRecipes(recipes, id);
      favorites := SweepFavorites(favorites, id);
      daily := SweepDaily(daily, id);
      weekly := SweepWeekly(weekly, id);
    }

    // -------------------------------------------------------------------------
    // Favourites and the daily menu of the current user
    // -------------------------------------------------------------------------

    /** `toggleFavorite` for the user `uid`: a present id is removed everywhere
        in their list, an absent one is appended; no other user's list moves. */
    method ToggleFavorite(uid: UserId, id: RecipeId)
      modifies this`favorites
      ensures favorites == old(favorites)[uid := Toggled(FavoritesOf(old(favorites), uid), id)]
      ensures id in FavoritesOf(favorites, uid) <==> id !in FavoritesOf(old(favorites), uid)
      ensures forall v :: v != uid ==> FavoritesOf(favorites, v) == FavoritesOf(old(favorites), v)
    {
      var favs := FavoritesOf(favorites, uid);
      if id in favs {
        favs := Without(favs, id);
      } else {
        favs := favs + [id];
      }
      SetUserFavorites(uid, favs);
    }

    /** `addRecipeToDailyMenuPrompt` with the prompt's answer as input: a
        recognised meal gets `recipeId` in the default-filled daily menu, which
        is stored; an unrecognised answer stores nothing. */
    method AddRecipeToDailyMenu(uid: UserId, recipeId: RecipeId, answer: string)
      returns (meal: Option<Meal>)
      modifies this`daily
      ensures meal == ResolveMeal(answer)
      ensures meal.None? ==> daily == old(daily)
      ensures meal.Some? ==> daily == old(daily)[uid := Assigned(DailyMenuOf(old(daily), uid), meal.value, recipeId)]
    {
      meal := ResolveMeal(answer);
      var menu := DailyMenuOf(daily, uid);
      if meal.None? {
        return;
      }
      menu := menu[meal.value := Some(recipeId)];
      daily := daily[uid := menu];
    }

    // -------------------------------------------------------------------------
    // The shopping list of the current user
    // -------------------------------------------------------------------------

    /** `generateShoppingListFromMenus` for the user `uid`: nothing is written
        when their menus name no recipe; otherwise their list is replaced by the
        aggregated one, with every item unchecked. */
    method GenerateShoppingList(uid: UserId) returns (generated: bool)
      modifies this`shopping
      ensures var agg := Aggregated(recipes, DailyMenuOf(daily, uid), WeeklyMenuOf(weekly, uid));
              && generated == agg.Some?
              && (!generated ==> shopping == old(shopping))
              && (generated ==> shopping == old(shopping)[uid := agg.value])
      ensures generated ==> forall i :: 0 <= i < |ShoppingListOf(shopping, uid)| ==>
                !ShoppingListOf(shopping, uid)[i].checked
    {
      var menu := DailyMenuOf(daily, uid);
      var week := GetWeeklyMenuForUser(weekly, uid);
      var list := AggregateShoppingList(recipes, menu, week);
      if list.None? {
        return false;
      }
      generated := true;
      ghost var ids := MenuIds(menu, week);
      ShoppingListItems(recipes, ids);
      SetShoppingList(uid, list.value);
    }

    /** The checkbox handler of a rendered shopping item: the user's stored list
        is read again and entry `index` is replaced by the rendered item, whose
        flag the click has just changed; every other entry stays. */
    method StoreShoppingItem(uid: UserId, index: nat, item: ShoppingItem)
      requires index < |ShoppingListOf(shopping, uid)|
      modifies this`shopping
      ensures shopping == old(shopping)[uid := ShoppingListOf(old(shopping), uid)[index := item]]
      ensures |ShoppingListOf(shopping, uid)| == |ShoppingListOf(old(shopping), uid)|
      ensures ShoppingListOf(shopping, uid)[index] == item
      ensures forall j :: 0 <= j < |ShoppingListOf(shopping, uid)| && j != index ==>
                ShoppingListOf(shopping, uid)[j] == ShoppingListOf(old(shopping), uid)[j]
      ensures forall v :: v != uid ==> ShoppingListOf(shopping, v) == ShoppingListOf(old(shopping), v)
    {
      var currentList := ShoppingListOf(shopping, uid);
      currentList := currentList[index := item];
      SetShoppingList(uid, currentList);
    }
  }
}
