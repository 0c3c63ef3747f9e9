/** `generateShoppingListFromMenus`: the recipes named by the current user's
    daily and weekly menus, each taken once, and their trimmed ingredient lines
    counted in the order they are first met. */
module Shopping {
  import opened Wrappers
  import opened Text
  import opened Model
  import opened Partitions

  // ---------------------------------------------------------------------------
  // Insertion-ordered sets
  // ---------------------------------------------------------------------------

  predicate NoDuplicates(s: seq<string>) {
    forall i, j :: 0 <= i < j < |s| ==> s[i] != s[j]
  }

  /** The position of the first occurrence of `x` in `s`. */
  function IndexOf(s: seq<string>, x: string): (k: nat)
    requires x in s
    ensures k < |s| && s[k] == x && x !in s[..k]
  {
    if s[0] == x then 0
    else
      var k := IndexOf(s[1..], x);
      assert s[..k + 1] == [s[0]] + s[1..][..k];
      k + 1
  }

  /** The elements of `s`, each once, in the order they are first seen: what a
      JavaScript `Set` (or the keys of an object) holds after adding the
      elements of `s` in turn. */
  function Dedup(s: seq<string>): (r: seq<string>)
    ensures NoDuplicates(r)
    ensures forall x :: x in r <==> x in s
  {
    if s == [] then []
    else
      var front, x := s[..|s| - 1], s[|s| - 1];
      assert s == front + [x];
      var p := Dedup(front);
      if x in p then p else p + [x]
  }

  /** Adding one more element: nothing changes when it was seen before, else it
      goes at the end. */
  lemma DedupSnoc(s: seq<string>, x: string)
    ensures Dedup(s + [x]) == if x in s then Dedup(s) else Dedup(s) + [x]
  {
    assert (s + [x])[..|s|] == s;
  }

  lemma IndexOfUnique(s: seq<string>, x: string, k: nat)
    requires k < |s| && s[k] == x && x !in s[..k]
    ensures IndexOf(s, x) == k
  {
  }

  /** `Dedup` keeps the order of first occurrences. */
  lemma {:induction false} DedupFirstSeen(s: seq<string>)
    ensures forall i, j :: 0 <= i < j < |Dedup(s)| ==> IndexOf(s, Dedup(s)[i]) < IndexOf(s, Dedup(s)[j])
  {
    if s != [] {
      var front, x := s[..|s| - 1], s[|s| - 1];
      assert s == front + [x];
      DedupFirstSeen(front);
      var p := Dedup(front);
      forall y | y in front ensures IndexOf(s, y) == IndexOf(front, y) {
        var k := IndexOf(front, y);
        assert s[..k] == front[..k];
        IndexOfUnique(s, y, k);
      }
      if x !in front {
        assert s[..|front|] == front;
        IndexOfUnique(s, x, |front|);
      }
    }
  }

  // ---------------------------------------------------------------------------
  // The referenced recipes
  // ---------------------------------------------------------------------------

  /** The ids of the filled slots, in slot order. */
  function FilledIds(slots: seq<Option<RecipeId>>): seq<RecipeId> {
    if slots == [] then []
    else
      var v := slots[|slots| - 1];
      FilledIds(slots[..|slots| - 1]) + (if Filled(v) then [v.value] else [])
  }

  /** An id is collected exactly when some slot holds it and it is not empty. */
  lemma {:induction false} FilledIdsMembers(slots: seq<Option<RecipeId>>)
    ensures forall x :: x in FilledIds(slots) <==> exists k :: 0 <= k < |slots| && slots[k] == Some(x) && x != ""
  {
    if slots != [] {
      var front := slots[..|slots| - 1];
      FilledIdsMembers(front);
      assert slots == front + [slots[|slots| - 1]];
      forall x | x in FilledIds(front) ensures exists k :: 0 <= k < |slots| && slots[k] == Some(x) && x != "" {
        var k :| 0 <= k < |front| && front[k] == Some(x) && x != "";
        assert slots[k] == Some(x);
      }
    }
  }

  /** `recipeIds`: the distinct ids of the three daily slots and the 21 weekly
      slots, in the order they are added. */
  function MenuIds(daily: MealRecord, week: WeekRecord): seq<RecipeId> {
    Dedup(FilledIds(MenuSlots(daily, week)))
  }

  /** One more slot goes through `recipeIds.add`: only a new non-empty id is added. */
  lemma AddSlot(seen: seq<Option<RecipeId>>, v: Option<RecipeId>)
    ensures Dedup(FilledIds(seen + [v]))
         == if Filled(v) && v.value !in Dedup(FilledIds(seen))
            then Dedup(FilledIds(seen)) + [v.value] else Dedup(FilledIds(seen))
  {
    assert (seen + [v])[..|seen|] == seen;
    if Filled(v) {
      DedupSnoc(FilledIds(seen), v.value);
    } else {
      assert FilledIds(seen + [v]) == FilledIds(seen);
    }
  }

  /** A recipe named again in a further slot is not collected again. */
  lemma RepeatedReferenceIgnored(slots: seq<Option<RecipeId>>, id: RecipeId)
    requires id in FilledIds(slots)
    ensures Dedup(FilledIds(slots + [Some(id)])) == Dedup(FilledIds(slots))
  {
    AddSlot(slots, Some(id));
  }

  // ---------------------------------------------------------------------------
  // The ingredient lines
  // ---------------------------------------------------------------------------

  /** The keys a line normaliser `f` gives for some lines: the non-empty
      results, in order. */
  function KeysBy(f: string -> string, ings: seq<string>): seq<string> {
    if ings == [] then []
    else
      var key := f(ings[|ings| - 1]);
      KeysBy(f, ings[..|ings| - 1]) + (if key == "" then [] else [key])
  }

  /** `(ingredients || []).forEach(ing => { const key = ing.trim(); if (!key) return; … })`:
      the keys one recipe's ingredient lines give, in order. */
  function Keys(ings: seq<string>): seq<string> {
    KeysBy(Trim, ings)
  }

  lemma KeysByStep(f: string -> string, ings: seq<string>, j: nat)
    requires j < |ings|
    ensures KeysBy(f, ings[..j + 1]) == KeysBy(f, ings[..j]) + (if f(ings[j]) == "" then [] else [f(ings[j])])
  {
    assert ings[..j + 1][..j] == ings[..j];
  }

  /** The key of one more line is added when it is not empty. */
  lemma KeysStep(ings: seq<string>, j: nat)
    requires j < |ings|
    ensures Keys(ings[..j + 1]) == Keys(ings[..j]) + (if Trim(ings[j]) == "" then [] else [Trim(ings[j])])
  {
    KeysByStep(Trim, ings, j);
  }

  lemma {:induction false} KeysByMembers(f: string -> string, ings: seq<string>)
    ensures forall t :: t in KeysBy(f, ings) <==> t != "" && exists k :: 0 <= k < |ings| && f(ings[k]) == t
  {
    if ings != [] {
      var front := ings[..|ings| - 1];
      KeysByMembers(f, front);
      assert ings == front + [ings[|ings| - 1]];
      forall t | t in KeysBy(f, front) ensures exists k :: 0 <= k < |ings| && f(ings[k]) == t {
        var k :| 0 <= k < |front| && f(front[k]) == t;
        assert ings[k] == front[k];
      }
    }
  }

  /** The keys of a recipe are its non-empty trimmed lines. */
  lemma KeysMembers(ings: seq<string>)
    ensures forall t :: t in Keys(ings) <==> t != "" && exists k :: 0 <= k < |ings| && Trim(ings[k]) == t
  {
    KeysByMembers(Trim, ings);
  }

  /** Every key is trimmed and not empty. */
  lemma KeyTrimmed(ings: seq<string>, t: string)
    requires t in Keys(ings)
    ensures t != "" && Trim(t) == t
  {
    KeysMembers(ings);
    var k :| 0 <= k < |ings| && Trim(ings[k]) == t;
    TrimIdempotent(ings[k]);
  }

  lemma {:induction false} KeysByFixed(f: string -> string, ings: seq<string>)
    requires forall k :: 0 <= k < |ings| ==> ings[k] != "" && f(ings[k]) == ings[k]
    ensures KeysBy(f, ings) == ings
  {
    if ings != [] {
      var front := ings[..|ings| - 1];
      KeysByFixed(f, front);
      assert ings == front + [ings[|ings| - 1]];
    }
  }

  /** Trimmed, non-empty lines are their own keys. */
  lemma KeysOfTrimmed(ings: seq<string>)
    requires forall k :: 0 <= k < |ings| ==> ings[k] != "" && Trim(ings[k]) == ings[k]
    ensures Keys(ings) == ings
  {
    KeysByFixed(Trim, ings);
  }

  /** What the recipe named `id` contributes: nothing when no catalogue recipe
      has that id. */
  function RecipeKeys(recipes: seq<Recipe>, id: RecipeId): seq<string> {
    match Find(recipes, id)
    case None => []
    case Some(r) => Keys(r.body.ingredients)
  }

  /** The keys met while visiting `ids` in order. */
  function Stream(recipes: seq<Recipe>, ids: seq<RecipeId>): seq<string> {
    if ids == [] then []
    else Stream(recipes, ids[..|ids| - 1]) + RecipeKeys(recipes, ids[|ids| - 1])
  }

  /** A key is met exactly when one of the visited recipes gives it. */
  lemma StreamMembers(recipes: seq<Recipe>, ids: seq<RecipeId>)
    ensures forall t :: t in Stream(recipes, ids) <==> exists j :: 0 <= j < |ids| && t in RecipeKeys(recipes, ids[j])
  {
    StreamMembersFrom(recipes, ids);
    StreamMembersReached(recipes, ids);
  }

  /** Every key of the stream comes from one of the visited recipes. */
  lemma {:induction false} StreamMembersFrom(recipes: seq<Recipe>, ids: seq<RecipeId>)
    ensures forall t :: t in Stream(recipes, ids) ==> exists j :: 0 <= j < |ids| && t in RecipeKeys(recipes, ids[j])
  {
    if ids != [] {
      var front, last := ids[..|ids| - 1], ids[|ids| - 1];
      StreamMembersFrom(recipes, front);
      forall t | t in Stream(recipes, ids) ensures exists j :: 0 <= j < |ids| && t in RecipeKeys(recipes, ids[j]) {
        if t in Stream(recipes, front) {
          var j :| 0 <= j < |front| && t in RecipeKeys(recipes, front[j]);
          assert ids[j] == front[j];
        } else {
          assert t in RecipeKeys(recipes, ids[|ids| - 1]);
        }
      }
    }
  }

  /** Every key of a visited recipe is in the stream. */
  lemma StreamMembersReached(recipes: seq<Recipe>, ids: seq<RecipeId>)
    ensures forall j, t :: 0 <= j < |ids| && t in RecipeKeys(recipes, ids[j]) ==> t in Stream(recipes, ids)
  {
    forall j, t | 0 <= j < |ids| && t in RecipeKeys(recipes, ids[j]) ensures t in Stream(recipes, ids) {
      StreamHas(recipes, ids, j, t);
    }
  }

  lemma {:induction false} StreamHas(recipes: seq<Recipe>, ids: seq<RecipeId>, j: nat, t: string)
    requires j < |ids| && t in RecipeKeys(recipes, ids[j])
    ensures t in Stream(recipes, ids)
  {
    var front, last := ids[..|ids| - 1], ids[|ids| - 1];
    assert Stream(recipes, ids) == Stream(recipes, front) + RecipeKeys(recipes, last);
    if j < |front| {
      assert ids[j] == front[j];
      StreamHas(recipes, front, j, t);
    } else {
      assert j == |ids| - 1;
    }
  }

  /** Two spaces and a multiplication sign, before a count above one. */
  const CountMark: string := "  ×"

  /** The text of a shopping item: the key, with its count when above one. */
  function Label(t: string, n: nat): (r: string)
    ensures t <= r
    ensures r == t <==> n <= 1
  {
    if n > 1 then t + CountMark + IntToString(n) else t
  }

  /** The shopping list for the referenced ids: one unchecked item per distinct
      key, in first-seen order, labelled with its number of occurrences. */
  function ShoppingListFor(recipes: seq<Recipe>, ids: seq<RecipeId>): (list: seq<ShoppingItem>)
    ensures |list| == |Dedup(Stream(recipes, ids))|
    ensures forall i :: 0 <= i < |list| ==> !list[i].checked && Dedup(Stream(recipes, ids))[i] <= list[i].text
  {
    var keys := Stream(recipes, ids);
    var d := Dedup(keys);
    seq(|d|, i requires 0 <= i < |d| => ShoppingItem(Label(d[i], multiset(keys)[d[i]]), false))
  }

  /** What the aggregation produces for a daily and a weekly menu: `None` when no
      slot names a recipe (the stored list is then left alone), else the list
      that replaces the stored one. */
  function Aggregated(recipes: seq<Recipe>, daily: MealRecord, week: WeekRecord): (r: Option<seq<ShoppingItem>>)
    ensures r.None? <==> MenuIds(daily, week) == []
    ensures r.Some? ==> forall i :: 0 <= i < |r.value| ==> !r.value[i].checked
  {
    var ids := MenuIds(daily, week);
    if ids == [] then None else Some(ShoppingListFor(recipes, ids))
  }

  // ---------------------------------------------------------------------------
  // The loops of generateShoppingListFromMenus
  // ---------------------------------------------------------------------------

  /** `seen + slots[..k]` grows by the next slot. */
  lemma SlotsStep(seen: seq<Option<RecipeId>>, slots: seq<Option<RecipeId>>, k: nat)
    requires k < |slots|
    ensures seen + slots[..k + 1] == seen + slots[..k] + [slots[k]]
  {
    assert slots[..k + 1] == slots[..k] + [slots[k]];
  }

  /** The meal loop over one record: each slot goes through `recipeIds.add`.
      `seen` stands for the slots visited before. */
  method AddRecord(ids: seq<RecipeId>, ghost seen: seq<Option<RecipeId>>, rec: MealRecord)
    returns (result: seq<RecipeId>)
    requires ids == Dedup(FilledIds(seen))
    ensures result == Dedup(FilledIds(seen + RecordSlots(rec)))
  {
    result := ids;
    assert seen + RecordSlots(rec)[..0] == seen;
    for k := 0 to |Meals|
      invariant result == Dedup(FilledIds(seen + RecordSlots(rec)[..k]))
    {
      var v := Slot(rec, Meals[k]);
      AddSlot(seen + RecordSlots(rec)[..k], v);
      SlotsStep(seen, RecordSlots(rec), k);
      if Filled(v) && v.value !in result {
        result := result + [v.value];
      }
    }
    assert RecordSlots(rec)[..3] == RecordSlots(rec);
  }

  /** The slots after one more day. */
  /** The slots the daily and weekly loops have visited once `i` days are done. */
  ghost function VisitedSlots(daily: MealRecord, week: WeekRecord, i: nat): seq<Option<RecipeId>>
    requires i <= |DaysOfWeek|
  {
    RecordSlots(daily) + WeekSlotsUpTo(week, i)
  }

  lemma VisitedSlotsStep(daily: MealRecord, week: WeekRecord, i: nat)
    requires i < |DaysOfWeek| && DaysOfWeek[i] in week
    ensures VisitedSlots(daily, week, i) + RecordSlots(week[DaysOfWeek[i]]) == VisitedSlots(daily, week, i + 1)
  { }

  lemma VisitedSlotsEnds(daily: MealRecord, week: WeekRecord)
    ensures VisitedSlots(daily, week, 0) == [] + RecordSlots(daily)
    ensures VisitedSlots(daily, week, |DaysOfWeek|) == MenuSlots(daily, week)
  {
    assert RecordSlots(daily) + [] == [] + RecordSlots(daily);
  }

  /** The daily and weekly loops that fill `recipeIds`. The weekly menu is the
      default-filled one, so every day is present. */
  method CollectIds(daily: MealRecord, week: WeekRecord) returns (ids: seq<RecipeId>)
    requires forall d: Day :: d in week
    ensures ids == MenuIds(daily, week)
  {
    VisitedSlotsEnds(daily, week);
    ids := AddRecord([], [], daily);
    ids := AddWeek(ids, daily, week);
  }

  /** The weekly loop: the records of the seven days, in `DAYS_OF_WEEK` order. */
  method AddWeek(ids: seq<RecipeId>, daily: MealRecord, week: WeekRecord) returns (result: seq<RecipeId>)
    requires forall i :: 0 <= i < |DaysOfWeek| ==> DaysOfWeek[i] in week
    requires ids == Dedup(FilledIds(VisitedSlots(daily, week, 0)))
    ensures result == Dedup(FilledIds(VisitedSlots(daily, week, |DaysOfWeek|)))
  {
    result := ids;
    for i := 0 to |DaysOfWeek|
      invariant result == Dedup(FilledIds(VisitedSlots(daily, week, i)))
    {
      var rec := week[DaysOfWeek[i]];
      VisitedSlotsStep(daily, week, i);
      result := AddRecord(result, VisitedSlots(daily, week, i), rec);
    }
  }

  /** `ingredientsMap` after the keys of `stream` went through it: `keys` is its
      key order and `counts` its values. */
  ghost predicate Counted(stream: seq<string>, keys: seq<string>, counts: map<string, nat>) {
    && keys == Dedup(stream)
    && (forall t :: t in counts <==> t in keys)
    && (forall t :: t in counts ==> counts[t] == multiset(stream)[t])
  }

  /** `if (!ingredientsMap[key]) ingredientsMap[key] = 0; ingredientsMap[key] += 1;` */
  method AddKey(keys: seq<string>, counts: map<string, nat>, ghost stream: seq<string>, key: string)
    returns (keys2: seq<string>, counts2: map<string, nat>)
    requires Counted(stream, keys, counts)
    ensures Counted(stream + [key], keys2, counts2)
  {
    DedupSnoc(stream, key);
    keys2, counts2 := keys, counts;
    if key !in counts2 {
      keys2 := keys2 + [key];
      counts2 := counts2[key := 0];
    }
    counts2 := counts2[key := counts2[key] + 1];
  }

  lemma StreamStep(s: seq<string>, k: seq<string>, x: string)
    ensures s + k + [x] == s + (k + [x])
  { }

  /** The ingredient loop of one recipe. */
  method CountRecipe(keys: seq<string>, counts: map<string, nat>, ghost stream: seq<string>,
                     ings: seq<string>)
    returns (keys2: seq<string>, counts2: map<string, nat>)
    requires Counted(stream, keys, counts)
    ensures Counted(stream + Keys(ings), keys2, counts2)
  {
    keys2, counts2 := keys, counts;
    assert stream + Keys(ings[..0]) == stream;
    for j := 0 to |ings|
      invariant Counted(stream + Keys(ings[..j]), keys2, counts2)
    {
      KeysStep(ings, j);
      var key := Trim(ings[j]);
      if key != "" {
        StreamStep(stream, Keys(ings[..j]), key);
        keys2, counts2 := AddKey(keys2, counts2, stream + Keys(ings[..j]), key);
      } else {
        assert Keys(ings[..j + 1]) == Keys(ings[..j]);
      }
    }
    assert ings[..|ings|] == ings;
  }

  lemma StreamPrefixStep(recipes: seq<Recipe>, ids: seq<RecipeId>, i: nat)
    requires i < |ids|
    ensures Stream(recipes, ids[..i + 1]) == Stream(recipes, ids[..i]) + RecipeKeys(recipes, ids[i])
  {
    assert ids[..i + 1][..i] == ids[..i];
  }

  /** The loop over `recipeIds` that fills `ingredientsMap`; an id that names no
      catalogue recipe is skipped. */
  method CountIngredients(recipes: seq<Recipe>, ids: seq<RecipeId>)
    returns (keys: seq<string>, counts: map<string, nat>)
    ensures keys == Dedup(Stream(recipes, ids))
    ensures forall t :: t in counts <==> t in keys
    ensures forall t :: t in counts ==> counts[t] == multiset(Stream(recipes, ids))[t]
  {
    keys, counts := [], map[];
    assert Stream(recipes, ids[..0]) == [];
    for i := 0 to |ids|
      invariant Counted(Stream(recipes, ids[..i]), keys, counts)
    {
      StreamPrefixStep(recipes, ids, i);
      var recipe := Find(recipes, ids[i]);
      if recipe.Some? {
        keys, counts := CountRecipe(keys, counts, Stream(recipes, ids[..i]), recipe.value.body.ingredients);
      } else {
        assert Stream(recipes, ids[..i]) + RecipeKeys(recipes, ids[i]) == Stream(recipes, ids[..i]);
      }
    }
    assert ids[..|ids|] == ids;
  }

  /** `Object.entries(ingredientsMap).map(…)`: one unchecked item per key. */
  function ItemsOf(keys: seq<string>, counts: map<string, nat>): (items: seq<ShoppingItem>)
    requires forall t :: t in keys ==> t in counts
    ensures |items| == |keys|
    ensures forall i :: 0 <= i < |keys| ==> items[i] == ShoppingItem(Label(keys[i], counts[keys[i]]), false)
  {
    seq(|keys|, i requires 0 <= i < |keys| => ShoppingItem(Label(keys[i], counts[keys[i]]), false))
  }

  /** The items built from the counted keys are the specified list. */
  lemma ItemsOfCounts(recipes: seq<Recipe>, ids: seq<RecipeId>, keys: seq<string>, counts: map<string, nat>)
    requires keys == Dedup(Stream(recipes, ids))
    requires forall t :: t in counts <==> t in keys
    requires forall t :: t in counts ==> counts[t] == multiset(Stream(recipes, ids))[t]
    ensures ItemsOf(keys, counts) == ShoppingListFor(recipes, ids)
  {
    var spec := ShoppingListFor(recipes, ids);
    forall i | 0 <= i < |keys| ensures ItemsOf(keys, counts)[i] == spec[i] {
      assert keys[i] in counts;
    }
  }

  /** `generateShoppingListFromMenus` without its storage write: `None` when the
      menus name no recipe, else the list to store. */
  method AggregateShoppingList(recipes: seq<Recipe>, daily: MealRecord, week: WeekRecord)
    returns (list: Option<seq<ShoppingItem>>)
    requires forall d: Day :: d in week
    ensures list == Aggregated(recipes, daily, week)
  {
    var ids := CollectIds(daily, week);
    if |ids| == 0 {
      return None;
    }
    var keys, counts := CountIngredients(recipes, ids);
    list := Some(ItemsOf(keys, counts));
    ItemsOfCounts(recipes, ids, keys, counts);
  }

  // ---------------------------------------------------------------------------
  // Properties
  // ---------------------------------------------------------------------------

  /** The aggregation writes nothing exactly when no slot holds an id. */
  lemma NothingReferenced(recipes: seq<Recipe>, daily: MealRecord, week: WeekRecord)
    ensures Aggregated(recipes, daily, week).None?
        <==> forall k :: 0 <= k < |MenuSlots(daily, week)| ==> !Filled(MenuSlots(daily, week)[k])
  {
    var slots := MenuSlots(daily, week);
    FilledIdsMembers(slots);
    if Aggregated(recipes, daily, week).Some? {
      var x := MenuIds(daily, week)[0];
      assert x in FilledIds(slots);
    }
  }

  /** The item for each key: unchecked, and labelled with the key and, when
      above one, its number of occurrences; the keys are distinct. */
  lemma ShoppingListItems(recipes: seq<Recipe>, ids: seq<RecipeId>)
    ensures var list, keys := ShoppingListFor(recipes, ids), Dedup(Stream(recipes, ids));
      && NoDuplicates(keys)
      && (forall i :: 0 <= i < |list| ==> !list[i].checked)
      && (forall i :: 0 <= i < |list| ==>
            var n := multiset(Stream(recipes, ids))[keys[i]];
            n >= 1 && (n == 1 ==> list[i].text == keys[i])
                   && (n > 1 ==> list[i].text == keys[i] + CountMark + IntToString(n)))
  {
    var stream := Stream(recipes, ids);
    var keys := Dedup(stream);
    forall i | 0 <= i < |keys| ensures multiset(stream)[keys[i]] >= 1 {
      assert keys[i] in stream;
    }
  }

  /** Every key met is trimmed and not empty. */
  lemma StreamKeyTrimmed(recipes: seq<Recipe>, ids: seq<RecipeId>, t: string)
    requires t in Stream(recipes, ids)
    ensures t != "" && Trim(t) == t
  {
    StreamMembers(recipes, ids);
    var j :| 0 <= j < |ids| && t in RecipeKeys(recipes, ids[j]);
    KeyTrimmed(Find(recipes, ids[j]).value.body.ingredients, t);
  }

  /** The keys of the list are trimmed and not empty. */
  lemma ShoppingKeysTrimmed(recipes: seq<Recipe>, ids: seq<RecipeId>)
    ensures var keys := Dedup(Stream(recipes, ids));
      forall i :: 0 <= i < |keys| ==> keys[i] != "" && Trim(keys[i]) == keys[i]
  {
    var keys := Dedup(Stream(recipes, ids));
    forall i | 0 <= i < |keys| ensures keys[i] != "" && Trim(keys[i]) == keys[i] {
      StreamKeyTrimmed(recipes, ids, keys[i]);
    }
  }

  /** The keys are exactly the non-empty trimmed ingredient lines of the
      referenced recipes that exist. */
  lemma ShoppingKeysAreIngredients(recipes: seq<Recipe>, ids: seq<RecipeId>)
    ensures forall t :: t in Dedup(Stream(recipes, ids)) <==>
      t != "" && exists j :: 0 <= j < |ids| && Find(recipes, ids[j]).Some?
                        && exists k :: 0 <= k < |Find(recipes, ids[j]).value.body.ingredients|
                                   && Trim(Find(recipes, ids[j]).value.body.ingredients[k]) == t
  {
    StreamMembers(recipes, ids);
    forall j | 0 <= j < |ids| && Find(recipes, ids[j]).Some? {
      KeysMembers(Find(recipes, ids[j]).value.body.ingredients);
    }
  }

  /** A label can be read back: it starts with its key, and after the count mark
      `parseInt` recovers the count. */
  lemma LabelReadsBack(t: string, n: nat)
    requires n > 1
    ensures t <= Label(t, n)
    ensures Label(t, n)[|t|..|t| + |CountMark|] == CountMark
    ensures ParseInt(Label(t, n)[|t| + |CountMark|..]) == Some(n)
  {
    var l := Label(t, n);
    assert l == t + CountMark + IntToString(n);
    assert l[|t| + |CountMark|..] == IntToString(n);
    ParseIntOfIntToString(n);
  }

  /** Two recipes, `a` with the lines `e` and `m` and `b` with `e` and `s`, both
      on the menu: one item `e` with the mark and 2, then `m`, then `s`, all
      unchecked. */
  lemma TwoRecipesExample(a: RecipeBody, b: RecipeBody, ida: RecipeId, idb: RecipeId,
                          e: string, m: string, s: string)
    requires ida != idb
    requires a.ingredients == [e, m] && b.ingredients == [e, s]
    requires e != m && e != s && m != s
    requires e != "" && m != "" && s != ""
    requires Trim(e) == e && Trim(m) == m && Trim(s) == s
    ensures ShoppingListFor([Recipe(ida, a), Recipe(idb, b)], [ida, idb])
         == [ShoppingItem(e + CountMark + "2", false), ShoppingItem(m, false), ShoppingItem(s, false)]
  {
    KeysOfTwo(e, m);
    KeysOfTwo(e, s);
    ExampleStream(a, b, ida, idb, e, m, s);
    ExampleList([Recipe(ida, a), Recipe(idb, b)], [ida, idb], e, m, s);
  }

  lemma KeysByTwo(f: string -> string, x: string, y: string)
    requires x != "" && y != "" && f(x) == x && f(y) == y
    ensures KeysBy(f, [x, y]) == [x, y]
  {
    KeysByFixed(f, [x, y]);
  }

  lemma KeysOfTwo(x: string, y: string)
    requires x != "" && y != "" && Trim(x) == x && Trim(y) == y
    ensures Keys([x, y]) == [x, y]
  {
    KeysByTwo(Trim, x, y);
  }

  lemma ExampleStream(a: RecipeBody, b: RecipeBody, ida: RecipeId, idb: RecipeId,
                      e: string, m: string, s: string)
    requires ida != idb
    requires Keys(a.ingredients) == [e, m] && Keys(b.ingredients) == [e, s]
    ensures Stream([Recipe(ida, a), Recipe(idb, b)], [ida, idb]) == [e, m] + [e, s]
  {
    var recipes := [Recipe(ida, a), Recipe(idb, b)];
    FindOfTwo(Recipe(ida, a), Recipe(idb, b));
    StreamOfTwo(recipes, ida, idb);
  }

  lemma FindOfTwo(x: Recipe, y: Recipe)
    requires x.id != y.id
    ensures Find([x, y], x.id) == Some(x) && Find([x, y], y.id) == Some(y)
  {
    assert [x, y][0] == x && [x, y][1] == y;
    assert FindIndex([x, y], y.id) == 1;
  }

  lemma StreamOfTwo(recipes: seq<Recipe>, x: RecipeId, y: RecipeId)
    ensures Stream(recipes, [x, y]) == RecipeKeys(recipes, x) + RecipeKeys(recipes, y)
  {
    var kx, ky := RecipeKeys(recipes, x), RecipeKeys(recipes, y);
    var none: seq<RecipeId> := [];
    assert Stream(recipes, [x]) == kx by {
      assert [x][..0] == none;
      assert Stream(recipes, none) == [];
      assert [] + kx == kx;
    }
    assert [x, y][..1] == [x];
  }

  lemma ExampleList(recipes: seq<Recipe>, ids: seq<RecipeId>, e: string, m: string, s: string)
    requires e != m && e != s && m != s
    requires Stream(recipes, ids) == [e, m] + [e, s]
    ensures ShoppingListFor(recipes, ids)
         == [ShoppingItem(e + CountMark + "2", false), ShoppingItem(m, false), ShoppingItem(s, false)]
  {
    var stream := Stream(recipes, ids);
    var list := ShoppingListFor(recipes, ids);
    ExampleDedup(e, m, s);
    ExampleCounts(stream, e, m, s);
    LabelOfTwo(e);
    assert |list| == 3;
    assert list[0] == ShoppingItem(Label(e, 2), false);
    assert list[1] == ShoppingItem(Label(m, 1), false);
    assert list[2] == ShoppingItem(Label(s, 1), false);
  }

  lemma ExampleCounts(stream: seq<string>, e: string, m: string, s: string)
    requires e != m && e != s && m != s
    requires stream == [e, m] + [e, s]
    ensures multiset(stream)[e] == 2 && multiset(stream)[m] == 1 && multiset(stream)[s] == 1
  {
  }

  lemma LabelOfTwo(t: string)
    ensures Label(t, 2) == t + CountMark + "2"
  {
    assert IntToString(2) == "2";
  }

  lemma ExampleDedup(e: string, m: string, s: string)
    requires e != m && e != s && m != s
    ensures Dedup([e, m] + [e, s]) == [e, m, s]
  {
    var s1: seq<string> := [e];
    var s2 := s1 + [m];
    var s3 := s2 + [e];
    DedupOne(e);
    DedupFresh(s1, m, [e]);
    DedupSeen(s2, e);
    DedupFresh(s3, s, [e, m]);
    assert s3 + [s] == [e, m] + [e, s];
  }

  lemma DedupOne(x: string)
    ensures Dedup([x]) == [x]
  {
    DedupSnoc([], x);
    assert [] + [x] == [x];
  }

  lemma DedupFresh(p: seq<string>, x: string, d: seq<string>)
    requires Dedup(p) == d && x !in p
    ensures Dedup(p + [x]) == d + [x]
  {
    DedupSnoc(p, x);
  }

  lemma DedupSeen(p: seq<string>, x: string)
    requires x in p
    ensures Dedup(p + [x]) == Dedup(p)
  {
    DedupSnoc(p, x);
  }
}
