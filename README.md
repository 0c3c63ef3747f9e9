# Recipe planner state engine, in Dafny

This project models the state engine of a browser meal planner (`script.js`).
The planner keeps a recipe catalogue, a user list and four per-user
partitions in browser storage:

- favourites: user id to a list of recipe ids;
- the daily menu: user id to a breakfast/lunch/dinner record;
- the weekly menu: user id to a record per day label (`Пн` … `Нд`);
- the shopping list: user id to a list of `{text, checked}` items.

The model covers the following parts of the planner:

- the default-filling reads of the partitions;
- the cascade that removes a deleted recipe from every user's favourites and menus;
- the favourite toggle;
- the meal-name prompt that fills a daily slot;
- the calorie sums;
- the shopping-list aggregation and the checkbox write-back;
- saving the recipe form;
- the plain-text export and import;
- the guest account and the registration checks.

Modules, one per file:

- `Wrappers`: `Option`.
- `Text`: the JavaScript string built-ins the code relies on, written out:
  `trim`, `toLowerCase`, `split`, `join`, integer rendering and `parseInt`.
- `Model`: recipes, users, meals, days, stored meal records and recipe lookup.
- `Partitions`: the four per-user partitions and their reads.
- `Favorites`, `Cascade`, `MealLabel`, `Calories`, `Shopping`, `RecipeForm`,
  `PlainText`, `Users`: the operations, each over the stored values.
- `Store`: class `Store`, whose fields are the stored keys. Its methods are the
  page's operations. Each one reads the keys it needs, calls the operation's
  module, and replaces the keys the page saves.

Stored meal records are partial maps `map<Meal, Option<RecipeId>>`, because a
stored object may lack a key. A missing key reads as `undefined` and behaves
like `null`. An empty id counts as "no id", as in the source's truthiness tests.

In three places the code does something unexpected; the model follows the code:

- The recipe form trims the title but checks the category as typed
  (script.js:784-786). Only the title is trimmed.
- The export writes `Категорія: X` and two section headers, but the import
  takes the second line verbatim as the category. So the export and the import
  are not inverse. `PlainText.ExportThenImport` proves what an import of an
  export actually returns: the whole category line, and ingredient and step
  lists each led by its section header.
- The aggregation visits recipe ids in first-insertion order. Ingredient texts
  are kept in first-seen order, without JavaScript's ordering of integer-like
  object keys.

## Model

| member | source | states |
|---|---|---|
| `Partitions.FavoritesOf` | script.js:108-111 | the stored favourites of the user, or `[]` when there is no entry |
| `Partitions.ShoppingListOf` | script.js:181-184 | the stored shopping list of the user, or `[]` when there is no entry |
| `Partitions.DailyMenuOf` | script.js:151-154 | all three meals are present; a stored key's value wins, a missing key is null |
| `Partitions.WeeklyMenuOf` | script.js:162-173 | all seven days are present; a stored day is returned unchanged, a missing day is the all-null record |
| `Partitions.GetWeeklyMenuForUser` | script.js:162-173 | the two `forEach` loops and the merge give exactly the default-filled week, and nothing is stored |
| `Partitions.DefaultWeekBuilt` | script.js:163-166 | the base object holds an all-null record under every day |
| `Partitions.FillMissingDays` | script.js:168-172 | every day is present after patching, stored days are untouched, patched days are all-null |
| `Partitions.DailyDefaultFillIdempotent` | script.js:151-160 | storing what a daily read returned and reading again gives the same record |
| `Partitions.WeeklyDefaultFillIdempotent` | script.js:162-179 | storing what a weekly read returned and reading again gives the same week |
| `Partitions.WritesAreUserScoped` | script.js:156-179 | a write to one user's daily or weekly entry leaves every other user's reads unchanged |
| `Store.Store.SetUserFavorites` | script.js:113-117 | replaces the user's favourites and nothing else |
| `Store.Store.SetDailyMenu` | script.js:156-160 | stores the user's daily record as given, so the next read returns its slots |
| `Store.Store.SetWeeklyMenu` | script.js:175-179 | stores the user's week as given, so the next read returns its stored days |
| `Store.Store.SetShoppingList` | script.js:186-190 | replaces the user's shopping list and nothing else |
| `Users.WithGuest` | script.js:62-76 | a guest account exists afterwards; an existing one is kept and nothing is added, otherwise one is appended |
| `Users.GuestOf` | script.js:62-76 | the returned account is named `guest` and is in the user list |
| `Users.EnsureGuestTwice` | script.js:62-76 | a second call adds nothing and returns the same guest |
| `Users.WithGuestKeepsDistinct` | script.js:62-76 | adding the guest under a fresh id keeps ids, names and e-mails distinct |
| `Store.Store.EnsureGuestUser` | script.js:62-76 | the user list becomes `WithGuest` of the old one and the guest is returned |
| `Users.RegisterOutcome` | script.js:271-289 | a missing field is rejected first, then a taken name, then a taken e-mail; registration only when all fields are present and both are unused |
| `Users.Registering` | script.js:271-297 | every rejected outcome leaves the list unchanged; a registration appends the account with the fresh id and the trimmed name and e-mail after the old list |
| `Users.RegisterKeepsDistinct` | script.js:281-298 | registering never makes two users share an id, a name or a non-empty e-mail |
| `Store.Store.Register` | script.js:271-298 | the outcome is `RegisterOutcome`; only a successful registration appends the trimmed account |
| `Model.FindIndex` | script.js:808 | -1 exactly when no recipe has the id; otherwise the first index holding it |
| `Model.Find` | script.js:1150 | `None` exactly when no recipe has the id; otherwise the first catalogue recipe with that id, the one at `FindIndex` |
| `Users.FindByName` | script.js:64 | `None` exactly when no user has the name; otherwise a listed user with that name, with no earlier user of that name |
| `RecipeForm.EditForm` | script.js:745-755 | id, title, category and description are shown as stored; a number field is empty exactly when the value is null or 0; ingredient and step lists without line breaks split back from their fields |
| `RecipeForm.FormBody` | script.js:784-802 | rejects a form whose trimmed title or raw category is empty; otherwise a trimmed title, the category as typed and a trimmed description |
| `RecipeForm.FormLinesClean` | script.js:795-802 | every stored ingredient and step line is non-empty, trimmed and free of line breaks |
| `RecipeForm.FormLinesMembers` | script.js:795-802 | every stored line is a non-empty trimmed piece of the field, and every trimmed piece between line breaks that is not empty is stored |
| `RecipeForm.NumberFieldOfText` | script.js:750-793 | a number shown in the form reads back with `parseInt`, except 0, which comes back as null |
| `RecipeForm.EditFormRoundTrip` | script.js:745-802 | submitting an edit form unchanged gives back the recipe's own fields |
| `RecipeForm.NewForm` | script.js:756-767 | the new-recipe form is empty and is rejected if submitted as is |
| `RecipeForm.Upserted` | script.js:804-835 | a known id gets its fields replaced at its index and keeps its id; an unknown id changes nothing; an empty id appends under the fresh id |
| `RecipeForm.UpsertKeepsIdsUnique` | script.js:804-833 | saving never makes two recipes share an id |
| `RecipeForm.SubmitRecipe` | script.js:772-835 | the index lookup and overwrite or push give the `Submitted` catalogue; rejected exactly when title or category is empty |
| `RecipeForm.UnchangedEditKeepsCatalogue` | script.js:745-835 | opening a catalogue recipe and saving the form unchanged leaves the catalogue as it was |
| `RecipeForm.NewRecipeAppended` | script.js:822-835 | a new recipe is appended with the form's fields and is found under the fresh id |
| `Store.Store.SubmitRecipeForm` | script.js:772-835 | the catalogue becomes the `Submitted` one, or is untouched when the form is rejected; ids stay distinct |
| `Cascade.PurgeRecipes` | script.js:847-849 | the id leaves the catalogue; every other recipe stays and nothing new appears; a catalogue without the id is unchanged |
| `Cascade.PurgeAppend` | script.js:848 | filtering a concatenation filters each part and keeps the survivors of the first part before those of the second |
| `Cascade.PurgeSnoc` | script.js:848 | a recipe added at the end is kept at the end unless it has the id |
| `Cascade.PurgeSingle` | script.js:848 | a one-recipe catalogue keeps its recipe exactly when it has another id |
| `Cascade.PurgePrefix` | script.js:848 | the survivors of every prefix are a prefix of the survivors, so the filter keeps the order |
| `Cascade.Cleared` | script.js:861-862 | slots equal to the id become null; every other slot and every key are kept |
| `Cascade.ClearRecord` | script.js:860-864 | the meal loop over one stored record gives `Cleared` |
| `Cascade.ClearWeek` | script.js:869-875 | the day and meal loops over one stored week clear only the stored days |
| `Cascade.SweepFavorites` | script.js:852-856 | the loop over every user's favourites gives `PurgeFavorites` |
| `Cascade.SweepDaily` | script.js:859-865 | the loop over every user's daily record gives `PurgeDaily` |
| `Cascade.SweepWeekly` | script.js:867-877 | the loop over every user's week gives `PurgeWeekly` |
| `Cascade.PurgeKeepsUniqueIds` | script.js:847-849 | filtering the catalogue keeps its ids distinct |
| `Cascade.CascadeComplete` | script.js:846-877 | afterwards the id is in no recipe, no favourites list of any user and no daily or weekly slot of any user |
| `Cascade.CascadeKeepsOthers` | script.js:846-877 | the catalogue and every favourites list keep their survivors in order; every other favourite keeps its count; every slot holding another id or null is unchanged |
| `Cascade.ClearedResolves` | script.js:858-877 | a cleared record whose slots named catalogue recipes names only recipes that survive the purge |
| `Cascade.CascadePreservesResolution` | script.js:846-877 | when every reference named a catalogue recipe before, every reference still does afterwards |
| `Store.Store.DeleteRecipe` | script.js:846-877 | the four keys become the purged ones; the surviving recipes keep their order; the id is mentioned nowhere; recipe ids stay distinct; references that resolved still resolve |
| `Favorites.Without` | script.js:890 | every occurrence of the id goes; every other id keeps its count; a list without the id is unchanged |
| `Favorites.WithoutAppend` | script.js:890 | filtering a concatenation filters each part and keeps the survivors of the first part before those of the second |
| `Favorites.WithoutSingle` | script.js:890 | a one-element list keeps its element exactly when it is another id |
| `Favorites.WithoutPrefix` | script.js:890 | the survivors of every prefix are a prefix of the survivors, so the filter keeps the order |
| `Favorites.Toggled` | script.js:886-894 | a present id is removed everywhere by `Without`, the rest keeping their order and counts; an absent id is appended after the unchanged list |
| `Favorites.ToggleTwiceRestores` | script.js:886-894 | toggling an absent id twice gives back the original list |
| `Favorites.ToggleTwiceOfPresent` | script.js:886-894 | toggling a present id twice leaves exactly one copy, at the end |
| `Store.Store.ToggleFavorite` | script.js:886-894 | the user's list becomes `Toggled` of the old one, so the id is in it exactly when it was not; every other user's favourites are unchanged |
| `MealLabel.ResolveMeal` | script.js:1117-1133 | a meal is chosen only when the lower-cased, trimmed answer starts with its prefix; `None` when no prefix matches |
| `MealLabel.ResolveMealExactly` | script.js:1117-1133 | a meal is chosen exactly when the normalised answer starts with its prefix |
| `MealLabel.PrefixesExclusive` | script.js:1123-1128 | no answer starts with two meal prefixes, so the order of the tests does not matter |
| `MealLabel.ResolveMealIgnoresCase` | script.js:1117-1119 | upper- and lower-case answers resolve alike |
| `MealLabel.ResolveBreakfastExample` | script.js:1117-1124 | a capitalised, padded "Сніданок" picks breakfast |
| `MealLabel.ResolveLunchExample` | script.js:1117-1126 | "ОБІД" picks lunch |
| `MealLabel.ResolveDinnerExample` | script.js:1117-1128 | "вечеря" picks dinner |
| `MealLabel.ResolveEmptyExample` | script.js:1117-1132 | a cancelled or empty answer is not recognised |
| `MealLabel.Assigned` | script.js:1123-1128 | the chosen slot holds the recipe; the other two slots are unchanged |
| `Store.Store.AddRecipeToDailyMenu` | script.js:1116-1133 | an unrecognised answer stores nothing; a recognised one stores the default-filled menu with that one slot set |
| `Calories.SlotCalories` | script.js:1148-1153 | a slot adds the calories of the recipe it names; an empty slot, an unknown id or null calories add 0 |
| `Calories.SumSlotsAppend` | script.js:1146-1176 | the sum over two runs of slots is the sum of their sums |
| `Calories.SumRecord` | script.js:1146-1154 | the meal loop's accumulator equals the sum over the record's three slots |
| `Calories.RecalcCalories` | script.js:1139-1176 | `sumDaily` is the sum over the default-filled daily menu and `sumWeekly` over all 21 weekly slots |
| `Calories.SumOfRepeated` | script.js:1165-1176 | a recipe sitting in several slots is counted once per slot |
| `Calories.SumOfNothing` | script.js:1146-1176 | empty slots, unknown ids and recipes without calories add nothing |
| `Calories.SumBoundsSlot` | script.js:1146-1176 | with positive calories, the sum is at least what any one slot adds |
| `Calories.SumNonNegative` | script.js:1146-1176 | with positive calories, the sum is never negative |
| `Calories.WeekOfOneRecipe` | script.js:1165-1176 | one recipe in all 21 weekly slots counts 21 times, unlike in the shopping list |
| `Shopping.Dedup` | script.js:1193 | the insertion-ordered set holds each element once, and exactly the elements added |
| `Shopping.DedupFirstSeen` | script.js:1193-1204 | the set keeps its elements in the order they were first added |
| `Shopping.FilledIdsMembers` | script.js:1196-1205 | an id is collected exactly when some slot holds it and it is not empty |
| `Shopping.RepeatedReferenceIgnored` | script.js:1193-1205 | a recipe named again in a further slot is not collected again |
| `Shopping.AddWeek` | script.js:1201-1205 | the day loop adds the week's slots to the set in day and meal order, giving the distinct ids of all 24 slots |
| `Shopping.CollectIds` | script.js:1193-1205 | the daily and weekly loops fill `recipeIds` with the distinct ids of the 24 slots, in order |
| `Shopping.KeysMembers` | script.js:1217-1219 | a recipe's keys are exactly its non-empty trimmed ingredient lines |
| `Shopping.StreamMembers` | script.js:1214-1222 | a key is met exactly when one of the visited recipes gives it; unknown ids give nothing |
| `Shopping.StreamMembersFrom` | script.js:1214-1222 | every key met comes from one of the visited recipes |
| `Shopping.StreamMembersReached` | script.js:1214-1222 | every key of every visited recipe is met |
| `Shopping.AddKey` | script.js:1220-1221 | one more key keeps the map's keys in first-seen order and its values equal to the occurrence counts |
| `Shopping.CountRecipe` | script.js:1217-1222 | the ingredient loop of one recipe counts each trimmed, non-empty line |
| `Shopping.CountIngredients` | script.js:1213-1223 | `ingredientsMap` holds the distinct keys in first-seen order, each with its number of occurrences |
| `Shopping.Label` | script.js:1226 | the label starts with the key and is the key alone exactly when the count is at most 1 |
| `Shopping.ItemsOf` | script.js:1225-1228 | one unchecked item per key, labelled with the key and its count |
| `Shopping.ItemsOfCounts` | script.js:1213-1228 | the items built from the counted map are the specified shopping list |
| `Shopping.ShoppingListFor` | script.js:1213-1228 | one unchecked item per distinct key, in first-seen order, each text starting with its key |
| `Shopping.Aggregated` | script.js:1187-1228 | `None` exactly when no slot names a recipe; otherwise a list whose items are all unchecked |
| `Shopping.AggregateShoppingList` | script.js:1187-1228 | `None` when no slot names a recipe, else the specified shopping list |
| `Shopping.NothingReferenced` | script.js:1207-1210 | nothing is written exactly when no daily or weekly slot holds an id |
| `Shopping.ShoppingListItems` | script.js:1225-1228 | the keys are distinct; every item is unchecked; the text is the key for one occurrence, else the key, two spaces, `×` and the count |
| `Shopping.ShoppingKeysAreIngredients` | script.js:1213-1222 | the keys are exactly the non-empty trimmed ingredient lines of the referenced recipes that exist |
| `Shopping.ShoppingKeysTrimmed` | script.js:1218-1219 | every key is trimmed and not empty |
| `Shopping.LabelReadsBack` | script.js:1226 | a label with a count starts with its key, then the count mark, then digits that parse back to the count |
| `Shopping.TwoRecipesExample` | script.js:1187-1228 | recipes with lines e, m and e, s give the items e ×2, m, s, all unchecked |
| `Store.Store.GenerateShoppingList` | script.js:1187-1230 | with no referenced recipe the stored lists are unchanged; otherwise the user's list is replaced by the aggregated one, all unchecked |
| `Store.Store.StoreShoppingItem` | script.js:1266-1273 | entry `index` of the user's stored list is replaced by the item; every other entry and every other user's list is unchanged |
| `PlainText.ExportLines` | script.js:1286-1302 | the export starts with the title and the labelled category line |
| `PlainText.NumberLines` | script.js:1290-1292 | up to three number lines, none exactly when time, servings and calories are all null or 0 |
| `PlainText.IngredientLines` | script.js:1299 | one bulleted line per ingredient |
| `PlainText.StepLines` | script.js:1302 | one line per step, numbered from 1 |
| `PlainText.RecipeToPlainText` | script.js:1286-1304 | the pushed lines are `ExportLines`, joined with line breaks; a recipe without line breaks in its fields splits back into them |
| `PlainText.ExportLinesSingle` | script.js:1286-1302 | when no field holds a line break, no exported line does |
| `PlainText.ParseLines` | script.js:1450 | the text is split at line breaks and every line is trimmed, a carriage return included |
| `PlainText.DropBlanks` | script.js:1451 | the leading blank lines are removed, and only those |
| `PlainText.StripStepNumber` | script.js:1474 | removing the step number never makes the line longer |
| `PlainText.StripStepNumberCases` | script.js:1474 | a line without digits and a dot at its head is unchanged; a line starting with digits and a dot loses them and the white space after them |
| `PlainText.StripBullet` | script.js:1472 | one leading `-` or `•` and the white space after it are removed |
| `PlainText.ParsedLines` | script.js:1449-1487 | title, category and description are the first three lines after the leading blanks, and the numbers are null |
| `PlainText.ReadSections` | script.js:1460-1476 | the mode loop collects bullet-stripped lines up to the first blank line after an ingredient, then the non-blank lines after it with step numbers removed |
| `PlainText.ReadRecipeLines` | script.js:1451-1487 | the shift loops and the mode loop give `ParsedLines` |
| `PlainText.ParseRecipeFromTxt` | script.js:1449-1488 | the parser gives the record `ParsedBody` states |
| `PlainText.BulletLineParsed` | script.js:1299 | the bullet the export writes is the one the import removes |
| `PlainText.StepLineParsed` | script.js:1302 | the step number the export writes is the one the import removes |
| `PlainText.ExportThenImportHeader` | script.js:1288-1289 | importing an export gives back the trimmed title, but the whole category line as the category |
| `PlainText.ExportThenImport` | script.js:1286-1487 | importing an export without description and numbers gives the title, the category line and the trimmed ingredients and steps, each list led by its section header |
| `Store.Store.ImportRecipe` | script.js:1426-1435 | a parsed record without title or category is rejected; otherwise it is appended under the fresh id |
| `Text.Trim` | script.js:784 | both ends are stripped of white space, and the result is empty exactly when the text is all white space |
| `Text.TrimIdempotent` | script.js:784 | trimming twice is trimming once |
| `Text.SplitJoin` | script.js:754 | splitting joined pieces gives them back when no piece holds the separator |
| `Text.JoinSplit` | script.js:796 | joining the pieces of a split gives the text back |
| `Text.ParseInt` | script.js:791-793 | `NaN` (`None`) exactly when no digit follows the leading white space and sign; a negative value only after a leading minus |
| `Text.ParseIntOfDigitsPrefix` | script.js:791-793 | a run of digits followed by a non-digit parses to the run's value |
| `Text.ParseIntOfIntToString` | script.js:791 | `parseInt` reads back every integer a template string renders |
| `Text.ToLower` | script.js:1118 | the length is kept and every character is lower-cased on its own |
| `Text.ToLowerIdempotent` | script.js:1118 | lower-casing twice is lower-casing once |

## Left out

- Rendering, event wiring, navigation, tabs, `alert`, `confirm` and the
  weekly grid are left out. The prompt's answer, the form's field values, the
  current user id and the checkbox's item become parameters.
- The storage medium and JSON are left out. The stored keys are the fields of
  `Store.Store`. A malformed or absent key is a missing map entry, or an empty
  list for the catalogue and the users.
- Ids are not generated. `generateId` uses the clock and a random source. Every
  operation that creates a record takes a fresh, non-empty, unused id instead.
- Login, passwords and the current-user key are left out.
  `Store.Store.Register` takes the password only to test that it is non-empty.
- The file download, clipboard sharing, printing and the `FileReader` step of
  the import are left out. `Store.Store.ImportRecipe` starts from the file's text.
- `Text.LowerChar` lower-cases only Latin and Cyrillic capitals, not all of
  Unicode.
- The ingredient map does not model JavaScript's key-order quirks. Integer-like
  keys are enumerated first in a plain object, and keys such as `constructor`
  collide with inherited properties. The map is taken to be insertion-ordered.
- `Store.Store.StoreShoppingItem` requires `index` to be within the stored
  list. The source would silently extend the array past its end.
- `Cascade.SweepFavorites`, `Cascade.SweepDaily` and `Cascade.SweepWeekly`
  visit the users in no particular order. The source visits them in key
  insertion order. Each step touches only its own user's entry, so the result
  is the same.
- Numbers are unbounded integers. `parseInt` values beyond 2^53 and NaN
  arithmetic are not modelled; NaN is stored as null.
- Calorie values are treated as integers, as `parseInt` produces them.
