/** The recipe form: `openRecipeForm` fills its fields from a recipe (or clears
    them), and `handleRecipeFormSubmit` reads them back into a recipe that
    replaces the one with the form's id, or is appended under a fresh id. */
module RecipeForm {
  import opened Wrappers
  import opened Text
  import opened Model

  /** The values of the form's fields, as the page holds them: strings only. */
  datatype FormInput = FormInput(
    id: string,
    title: string,
    category: string,
    time: string,
    servings: string,
    calories: string,
    description: string,
    ingredients: string,
    steps: string)

  // ---------------------------------------------------------------------------
  // Reading the fields
  // ---------------------------------------------------------------------------

  /** `field.value ? parseInt(field.value, 10) : null`. */
  function NumberField(s: string): Option<int> {
    if s == "" then None else ParseInt(s)
  }

  /** `field.value.split('\n').map(s => s.trim()).filter(Boolean)`. */
  function FormLines(s: string): seq<string> {
    NonBlank(TrimAll(Split(s, '\n')))
  }

  /** Lines as the form stores them: none empty, none with white space at
      either end, none holding a line break. */
  predicate CleanLines(ls: seq<string>) {
    forall i :: 0 <= i < |ls| ==> ls[i] != "" && Trim(ls[i]) == ls[i] && '\n' !in ls[i]
  }

  /** The recipe fields the form gives, or `None` when the trimmed title or the
      category is empty (the page then alerts and saves nothing). The category
      is checked as typed, without trimming. */
  function FormBody(f: FormInput): (r: Option<RecipeBody>)
    ensures r.None? <==> Trim(f.title) == "" || f.category == ""
    ensures r.Some? ==> r.value.title != "" && Trim(r.value.title) == r.value.title
    ensures r.Some? ==> r.value.category == f.category != ""
    ensures r.Some? ==> Trim(r.value.description) == r.value.description
  {
    var title := Trim(f.title);
    if title == "" || f.category == "" then None
    else
      TrimIdempotent(f.title);
      TrimIdempotent(f.description);
      Some(RecipeBody(title, f.category, NumberField(f.time), NumberField(f.servings),
                      NumberField(f.calories), Trim(f.description),
                      FormLines(f.ingredients), FormLines(f.steps)))
  }

  /** A piece of text without a line break keeps none after trimming. */
  lemma TrimKeepsNoBreak(s: string)
    requires '\n' !in s
    ensures '\n' !in Trim(s)
  {
    var e := TrimEnd(s);
    assert e == s[..|e|];
    assert Trim(s) == e[|e| - |Trim(s)|..];
  }

  /** A piece between line breaks, trimmed, is a clean line unless empty. */
  lemma TrimmedPieceClean(p: string)
    requires '\n' !in p
    ensures Trim(Trim(p)) == Trim(p) && '\n' !in Trim(p)
  {
    TrimIdempotent(p);
    TrimKeepsNoBreak(p);
  }

  lemma MapAllMembers(f: string -> string, ls: seq<string>)
    ensures forall x :: x in MapAll(f, ls) <==> exists i :: 0 <= i < |ls| && f(ls[i]) == x
  {
    var r := MapAll(f, ls);
    forall x | x in r ensures exists i :: 0 <= i < |ls| && f(ls[i]) == x {
      var i :| 0 <= i < |r| && r[i] == x;
    }
  }

  /** The lines of a field are clean. */
  lemma FormLinesClean(s: string)
    ensures CleanLines(FormLines(s))
  {
    var pieces := Split(s, '\n');
    var ls := FormLines(s);
    NonBlankMembers(TrimAll(pieces));
    MapAllMembers(Trim, pieces);
    forall k | 0 <= k < |ls| ensures Trim(ls[k]) == ls[k] && '\n' !in ls[k] {
      assert ls[k] in TrimAll(pieces);
      var i :| 0 <= i < |pieces| && Trim(pieces[i]) == ls[k];
      TrimmedPieceClean(pieces[i]);
    }
  }

  /** The lines of a field are exactly the non-empty trimmed pieces between its
      line breaks: each stored line is such a piece, and each such piece is
      stored. */
  lemma FormLinesMembers(s: string)
    ensures forall x :: x in FormLines(s) ==> x != "" && x in TrimAll(Split(s, '\n'))
    ensures forall i :: 0 <= i < |Split(s, '\n')| && Trim(Split(s, '\n')[i]) != "" ==> Trim(Split(s, '\n')[i]) in FormLines(s)
  {
    var pieces := Split(s, '\n');
    assert FormLines(s) == NonBlank(TrimAll(pieces));
    TrimmedMembers(pieces);
  }

  lemma TrimmedMembers(pieces: seq<string>)
    ensures forall x :: x in NonBlank(TrimAll(pieces)) ==> x != "" && x in TrimAll(pieces)
    ensures forall i :: 0 <= i < |pieces| && Trim(pieces[i]) != "" ==> Trim(pieces[i]) in NonBlank(TrimAll(pieces))
  {
    var trimmed := TrimAll(pieces);
    NonBlankMembers(trimmed);
    forall i | 0 <= i < |pieces| ensures Trim(pieces[i]) in trimmed {
      assert trimmed[i] == Trim(pieces[i]);
    }
  }

  /** The lines of a submitted recipe are clean. */
  lemma FormBodyLinesClean(f: FormInput)
    requires FormBody(f).Some?
    ensures CleanLines(FormBody(f).value.ingredients) && CleanLines(FormBody(f).value.steps)
  {
    FormLinesClean(f.ingredients);
    FormLinesClean(f.steps);
  }

  // ---------------------------------------------------------------------------
  // Filling the fields
  // ---------------------------------------------------------------------------

  /** `recipe.cookTime || ''`: a number field shows nothing for `null` and for 0. */
  function FieldText(v: Option<int>): string {
    if Truthy(v) then IntToString(v.value) else ""
  }

  /** Lines without line breaks, shown one per line, split back into themselves. */
  lemma LinesShownSplitBack(ls: seq<string>)
    ensures ls != [] && (forall k :: 0 <= k < |ls| ==> '\n' !in ls[k]) ==> Split(Join(ls, '\n'), '\n') == ls
  {
    if ls != [] && (forall k :: 0 <= k < |ls| ==> '\n' !in ls[k]) {
      SplitJoin(ls, '\n');
    }
  }

  /** The form opened on an existing recipe: its id and texts as stored, a
      number field empty exactly when the number is null or 0, and the lines one
      per line, so that a field splits back into the recipe's lines. */
  function EditForm(r: Recipe): (f: FormInput)
    ensures f.id == r.id && f.title == r.body.title && f.category == r.body.category
    ensures f.description == r.body.description
    ensures f.time == "" <==> !Truthy(r.body.cookTime)
    ensures f.servings == "" <==> !Truthy(r.body.servings)
    ensures f.calories == "" <==> !Truthy(r.body.caloriesPerServing)
    ensures r.body.ingredients != [] && (forall k :: 0 <= k < |r.body.ingredients| ==> '\n' !in r.body.ingredients[k])
            ==> Split(f.ingredients, '\n') == r.body.ingredients
    ensures r.body.steps != [] && (forall k :: 0 <= k < |r.body.steps| ==> '\n' !in r.body.steps[k])
            ==> Split(f.steps, '\n') == r.body.steps
  {
    LinesShownSplitBack(r.body.ingredients);
    LinesShownSplitBack(r.body.steps);
    FormInput(r.id, r.body.title, r.body.category,
              FieldText(r.body.cookTime), FieldText(r.body.servings), FieldText(r.body.caloriesPerServing),
              r.body.description, Join(r.body.ingredients, '\n'), Join(r.body.steps, '\n'))
  }

  /** The form opened for a new recipe: every field empty. */
  function NewForm(): (f: FormInput)
    ensures f.id == "" && FormBody(f).None?
  {
    TrimEmpty();
    FormInput("", "", "", "", "", "", "", "", "")
  }

  /** A number shown in a field reads back, except that 0 comes back as `null`. */
  lemma NumberFieldOfText(v: Option<int>)
    ensures NumberField(FieldText(v)) == if Truthy(v) then v else None
  {
    if Truthy(v) {
      ParseIntOfIntToString(v.value);
    }
  }

  lemma MapAllFixed(f: string -> string, ls: seq<string>)
    requires forall i :: 0 <= i < |ls| ==> f(ls[i]) == ls[i]
    ensures MapAll(f, ls) == ls
  {
  }

  /** Clean lines shown one per line read back as the same lines. */
  lemma FormLinesOfJoin(ls: seq<string>)
    requires CleanLines(ls)
    ensures FormLines(Join(ls, '\n')) == ls
  {
    if ls == [] {
      TrimEmpty();
      assert Split("", '\n') == [""];
      assert TrimAll([""]) == [""];
    } else {
      SplitJoin(ls, '\n');
      MapAllFixed(Trim, ls);
      NonBlankOfNonBlank(ls);
    }
  }

  /** What an edit form round-trips: a recipe whose text fields are as the form
      would store them and whose numbers are not 0. */
  predicate Storable(b: RecipeBody) {
    && b.title != "" && Trim(b.title) == b.title
    && b.category != ""
    && Trim(b.description) == b.description
    && b.cookTime != Some(0)
    && b.servings != Some(0)
    && b.caloriesPerServing != Some(0)
    && CleanLines(b.ingredients) && CleanLines(b.steps)
  }

  /** Submitting an edit form unchanged gives back the recipe's own fields. */
  lemma EditFormRoundTrip(r: Recipe)
    requires Storable(r.body)
    ensures FormBody(EditForm(r)) == Some(r.body)
  {
    NumberFieldOfText(r.body.cookTime);
    NumberFieldOfText(r.body.servings);
    NumberFieldOfText(r.body.caloriesPerServing);
    FormLinesOfJoin(r.body.ingredients);
    FormLinesOfJoin(r.body.steps);
  }

  /** What a submission stores is storable, unless a number field read as 0;
      so opening it again and saving changes nothing. */
  lemma SubmittedIsStorable(f: FormInput)
    requires FormBody(f).Some?
    requires var b := FormBody(f).value;
             b.cookTime != Some(0)
             && b.servings != Some(0)
             && b.caloriesPerServing != Some(0)
    ensures Storable(FormBody(f).value)
  {
    FormBodyLinesClean(f);
  }

  // ---------------------------------------------------------------------------
  // Saving
  // ---------------------------------------------------------------------------

  lemma IdsSnoc(recipes: seq<Recipe>, r: Recipe)
    ensures Ids(recipes + [r]) == Ids(recipes) + {r.id}
  {
    var a := recipes + [r];
    forall id | id in Ids(recipes) ensures id in Ids(a) {
      var i :| 0 <= i < |recipes| && recipes[i].id == id;
      assert a[i].id == id;
    }
    assert a[|recipes|].id == r.id;
  }

  lemma IdsSameAt(recipes: seq<Recipe>, k: nat, r: Recipe)
    requires k < |recipes| && recipes[k].id == r.id
    ensures Ids(recipes[k := r]) == Ids(recipes)
  {
    var a := recipes[k := r];
    forall id | id in Ids(recipes) ensures id in Ids(a) {
      var i :| 0 <= i < |recipes| && recipes[i].id == id;
      assert a[i].id == id;
    }
  }

  /** The catalogue after saving `body` from a form with id field `id`: a
      non-empty id replaces the fields of the recipe with that id and keeps the
      id (and nothing happens when no recipe has it); an empty id appends a new
      recipe under `freshId`. */
  function Upserted(recipes: seq<Recipe>, id: string, body: RecipeBody, freshId: RecipeId): (r: seq<Recipe>)
    requires freshId != "" && freshId !in Ids(recipes)
    ensures id != "" && id in Ids(recipes) ==>
              && |r| == |recipes|
              && r[FindIndex(recipes, id)] == Recipe(id, body)
              && forall i :: 0 <= i < |r| && i != FindIndex(recipes, id) ==> r[i] == recipes[i]
    ensures id != "" && id !in Ids(recipes) ==> r == recipes
    ensures id == "" ==> r == recipes + [Recipe(freshId, body)]
    ensures Ids(r) == if id == "" then Ids(recipes) + {freshId} else Ids(recipes)
  {
    if id != "" then
      var k := FindIndex(recipes, id);
      if k == -1 then recipes
      else
        IdsSameAt(recipes, k, Recipe(recipes[k].id, body));
        recipes[k := Recipe(recipes[k].id, body)]
    else
      IdsSnoc(recipes, Recipe(freshId, body));
      recipes + [Recipe(freshId, body)]
  }

  /** Saving never makes two recipes share an id. */
  lemma UpsertKeepsIdsUnique(recipes: seq<Recipe>, id: string, body: RecipeBody, freshId: RecipeId)
    requires freshId != "" && freshId !in Ids(recipes)
    requires UniqueIds(recipes)
    ensures UniqueIds(Upserted(recipes, id, body, freshId))
  {
    var r := Upserted(recipes, id, body, freshId);
    forall i, j | 0 <= i < j < |r| ensures r[i].id != r[j].id {
      if id == "" && j == |recipes| {
        assert recipes[i].id in Ids(recipes);
      } else {
        assert r[i].id == recipes[i].id && r[j].id == recipes[j].id;
      }
    }
  }

  /** `handleRecipeFormSubmit`: `None` when the form is rejected and nothing is
      saved, else the catalogue to save. */
  function Submitted(recipes: seq<Recipe>, f: FormInput, freshId: RecipeId): Option<seq<Recipe>>
    requires freshId != "" && freshId !in Ids(recipes)
  {
    match FormBody(f)
    case None => None
    case Some(body) => Some(Upserted(recipes, f.id, body, freshId))
  }

  /** `handleRecipeFormSubmit` on the catalogue it read: `None` when the form is
      rejected, else the catalogue it saves, built as the page builds it (find
      the index of the form's id and overwrite that entry, or push a new one). */
  method SubmitRecipe(recipes: seq<Recipe>, f: FormInput, freshId: RecipeId)
    returns (result: Option<seq<Recipe>>)
    requires freshId != "" && freshId !in Ids(recipes)
    ensures result == Submitted(recipes, f, freshId)
    ensures result.None? <==> Trim(f.title) == "" || f.category == ""
  {
    var body := FormBody(f);
    if body.None? {
      return None;
    }
    var rs := recipes;
    if f.id != "" {
      var idx := FindIndex(rs, f.id);
      if idx != -1 {
        rs := rs[idx := Recipe(rs[idx].id, body.value)];
      }
    } else {
      rs := rs + [Recipe(freshId, body.value)];
    }
    result := Some(rs);
  }

  /** Saving a recipe's own fields under its id changes nothing. */
  lemma UpsertSame(recipes: seq<Recipe>, r: Recipe, freshId: RecipeId)
    requires freshId != "" && freshId !in Ids(recipes)
    requires r.id != "" && Find(recipes, r.id) == Some(r)
    ensures Upserted(recipes, r.id, r.body, freshId) == recipes
  {
    var k := FindIndex(recipes, r.id);
    assert recipes[k] == r;
    assert recipes[k := r] == recipes;
  }

  /** Opening a catalogue recipe and saving the form unchanged leaves the
      catalogue as it was. */
  lemma UnchangedEditKeepsCatalogue(recipes: seq<Recipe>, r: Recipe, freshId: RecipeId)
    requires freshId != "" && freshId !in Ids(recipes)
    requires r.id != "" && Find(recipes, r.id) == Some(r)
    requires Storable(r.body)
    ensures Submitted(recipes, EditForm(r), freshId) == Some(recipes)
  {
    EditFormRoundTrip(r);
    UpsertSame(recipes, r, freshId);
  }

  /** A recipe appended under an unused id is found under it. */
  lemma FindAppended(recipes: seq<Recipe>, r: Recipe)
    requires r.id !in Ids(recipes)
    ensures Find(recipes + [r], r.id) == Some(r)
  {
    var a := recipes + [r];
    assert a[|recipes|] == r;
  }

  /** A new recipe is appended with the form's fields under the fresh id. */
  lemma NewRecipeAppended(recipes: seq<Recipe>, f: FormInput, freshId: RecipeId)
    requires freshId != "" && freshId !in Ids(recipes)
    requires f.id == "" && FormBody(f).Some?
    ensures Submitted(recipes, f, freshId) == Some(recipes + [Recipe(freshId, FormBody(f).value)])
    ensures Find(Submitted(recipes, f, freshId).value, freshId) == Some(Recipe(freshId, FormBody(f).value))
  {
    FindAppended(recipes, Recipe(freshId, FormBody(f).value));
  }
}
