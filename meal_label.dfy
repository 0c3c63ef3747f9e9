/** Free-text meal names, as typed into the "add to daily menu" prompt, resolved
    to a slot by their first letters. */
module MealLabel {
  import opened Wrappers
  import opened Text
  import opened Model

  /** The prefix that selects a meal: сні(данок), об(ід), веч(еря). */
  function MealPrefix(m: Meal): string {
    match m
    case Breakfast => "сні"
    case Lunch => "об"
    case Dinner => "веч"
  }

  /** The answer lower-cased, then trimmed; a cancelled prompt is the empty answer. */
  function NormalizeLabel(answer: string): string {
    Trim(ToLower(answer))
  }

  /** The prefix tests of the prompt, in their order, on the normalised answer:
      the first prefix it starts with picks the meal; none means "not
      recognised". */
  function ResolveNormalized(t: string): (r: Option<Meal>)
    ensures r.Some? ==> MealPrefix(r.value) <= t
    ensures r.None? ==> forall m :: !(MealPrefix(m) <= t)
  {
    if "сні" <= t then Some(Breakfast)
    else if "об" <= t then Some(Lunch)
    else if "веч" <= t then Some(Dinner)
    else
      NoPrefix(t);
      None
  }

  /** The meal a prompt answer selects. */
  function ResolveMeal(answer: string): (r: Option<Meal>)
    ensures r.Some? ==> MealPrefix(r.value) <= NormalizeLabel(answer)
    ensures r.None? ==> forall m :: !(MealPrefix(m) <= NormalizeLabel(answer))
  {
    ResolveNormalized(NormalizeLabel(answer))
  }

  /** The daily menu after `daily.breakfastId = recipeId` (or the lunch or the
      dinner key): that slot holds the recipe, the other two are unchanged. */
  function Assigned(menu: MealRecord, m: Meal, recipeId: RecipeId): (r: MealRecord)
    ensures Slot(r, m) == Some(recipeId)
    ensures forall m' :: m' != m ==> Slot(r, m') == Slot(menu, m')
    ensures forall m' :: m' in menu ==> m' in r
  {
    menu[m := Some(recipeId)]
  }

  lemma NoPrefix(t: string)
    requires !("сні" <= t) && !("об" <= t) && !("веч" <= t)
    ensures forall m :: !(MealPrefix(m) <= t)
  {
    forall m ensures !(MealPrefix(m) <= t) {
      match m
      case Breakfast =>
      case Lunch =>
      case Dinner =>
    }
  }

  /** No answer starts with two different meal prefixes. */
  lemma PrefixesExclusive(t: string, m: Meal, m': Meal)
    requires MealPrefix(m) <= t && MealPrefix(m') <= t
    ensures m == m'
  {
    assert MealPrefix(m)[0] == t[0] == MealPrefix(m')[0];
    match m
    case Breakfast =>
    case Lunch =>
    case Dinner =>
  }

  /** The three prefixes start with different letters, so the order of the tests
      does not matter: a meal is chosen exactly when the answer starts with its
      prefix. */
  lemma ResolveMealExactly(answer: string, m: Meal)
    ensures ResolveMeal(answer) == Some(m) <==> MealPrefix(m) <= NormalizeLabel(answer)
  {
    var r := ResolveMeal(answer);
    if MealPrefix(m) <= NormalizeLabel(answer) && r.Some? {
      PrefixesExclusive(NormalizeLabel(answer), m, r.value);
    }
  }

  /** Upper and lower case answers resolve alike. */
  lemma ResolveMealIgnoresCase(answer: string)
    ensures ResolveMeal(ToLower(answer)) == ResolveMeal(answer)
  {
    ToLowerIdempotent(answer);
    assert NormalizeLabel(ToLower(answer)) == NormalizeLabel(answer);
  }

  /** An answer whose lower-cased form has no white space at its ends is
      normalised to that form. */
  lemma NormalizesToWord(answer: string, word: string)
    requires ToLower(answer) == word
    requires word != [] && !IsSpace(word[0]) && !IsSpace(word[|word| - 1])
    ensures NormalizeLabel(answer) == word
  {
    TrimOfTrimmed(word);
  }

  // Worked examples of the prompt: the three words it asks for, capitalised or
  // padded, are recognised; an empty or cancelled answer is not. Each goes
  // through small steps: lower-casing, trimming, then the prefix tests.

  lemma LowerPaddedBreakfast(a: string)
    requires a == " Сніданок "
    ensures ToLower(a) == " сніданок "
  { }

  lemma TrimPaddedBreakfast(s: string)
    requires s == " сніданок "
    ensures Trim(s) == "сніданок"
  {
    SpanStartUnique(s, 1);
    SpanEndUnique(s, 9);
  }

  lemma BreakfastWord(t: string)
    requires t == "сніданок"
    ensures ResolveNormalized(t) == Some(Breakfast)
  { }

  lemma ResolveBreakfastExample(answer: string)
    requires answer == " Сніданок "
    ensures ResolveMeal(answer) == Some(Breakfast)
  {
    LowerPaddedBreakfast(answer);
    TrimPaddedBreakfast(ToLower(answer));
    BreakfastWord(NormalizeLabel(answer));
  }

  lemma LowerLunch(a: string)
    requires a == "ОБІД"
    ensures ToLower(a) == "обід"
  { }

  lemma LunchWord(t: string)
    requires t == "обід"
    ensures ResolveNormalized(t) == Some(Lunch)
  {
    assert !("сні" <= t) by { assert "сні"[0] != t[0]; }
  }

  lemma ResolveLunchExample(answer: string)
    requires answer == "ОБІД"
    ensures ResolveMeal(answer) == Some(Lunch)
  {
    LowerLunch(answer);
    NormalizesToWord(answer, "обід");
    LunchWord(NormalizeLabel(answer));
  }

  lemma LowerDinner(a: string)
    requires a == "вечеря"
    ensures ToLower(a) == "вечеря"
  { }

  lemma DinnerWord(t: string)
    requires t == "вечеря"
    ensures ResolveNormalized(t) == Some(Dinner)
  {
    assert !("сні" <= t) by { assert "сні"[0] != t[0]; }
    assert !("об" <= t) by { assert "об"[0] != t[0]; }
  }

  lemma ResolveDinnerExample(answer: string)
    requires answer == "вечеря"
    ensures ResolveMeal(answer) == Some(Dinner)
  {
    LowerDinner(answer);
    NormalizesToWord(answer, "вечеря");
    DinnerWord(NormalizeLabel(answer));
  }

  lemma EmptyWord(t: string)
    requires t == ""
    ensures ResolveNormalized(t) == None
  { }

  lemma ResolveEmptyExample(answer: string)
    requires answer == ""
    ensures ResolveMeal(answer) == None
  {
    assert NormalizeLabel(answer) == "";
    EmptyWord(NormalizeLabel(answer));
  }
}
