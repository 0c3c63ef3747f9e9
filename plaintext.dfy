/** The plain-text interchange format of a recipe: the exporter that writes it
    line by line and the importer that reads a recipe back from such a text. */
module PlainText {
  import opened Wrappers
  import opened Text
  import opened Model

  // ---------------------------------------------------------------------------
  // Export
  // ---------------------------------------------------------------------------

  /** The fixed texts of the format. */
  const CategoryLabel := "Категорія: "
  const TimeLabel := "Час: "
  const TimeUnit := " хв"
  const ServingsLabel := "Порцій: "
  const CaloriesLabel := "Калорійність: "
  const CaloriesUnit := " ккал/порція"
  const IngredientsHeader := "Інгредієнти:"
  const StepsHeader := "Кроки приготування:"
  const BulletMark := "- "
  const NumberMark := ". "

  /** The cooking-time line, when the time is truthy. */
  function CookTimeLines(r: RecipeBody): seq<string> {
    if Truthy(r.cookTime) then [TimeLabel + IntToString(r.cookTime.value) + TimeUnit] else []
  }

  /** The servings line, when the number of servings is truthy. */
  function ServingsLines(r: RecipeBody): seq<string> {
    if Truthy(r.servings) then [ServingsLabel + IntToString(r.servings.value)] else []
  }

  /** The calories line, when the calories per serving are truthy. */
  function CaloriesLines(r: RecipeBody): seq<string> {
    if Truthy(r.caloriesPerServing)
    then [CaloriesLabel + IntToString(r.caloriesPerServing.value) + CaloriesUnit]
    else []
  }

  /** The optional lines for cooking time, servings and calories, in that order. */
  function NumberLines(r: RecipeBody): (rs: seq<string>)
    ensures |rs| <= 3
    ensures rs == [] <==> !Truthy(r.cookTime) && !Truthy(r.servings) && !Truthy(r.caloriesPerServing)
  {
    CookTimeLines(r) + ServingsLines(r) + CaloriesLines(r)
  }

  /** A blank line and the description, when there is one. */
  function DescriptionLines(r: RecipeBody): seq<string> {
    if r.description != "" then ["", r.description] else []
  }

  /** One bulleted line per ingredient. */
  function IngredientLines(ings: seq<string>): (rs: seq<string>)
    ensures |rs| == |ings|
    ensures forall k :: 0 <= k < |ings| ==> rs[k] == BulletMark + ings[k]
  {
    seq(|ings|, k requires 0 <= k < |ings| => BulletMark + ings[k])
  }

  /** One numbered line per step, counting from 1. */
  function StepLines(steps: seq<string>): (rs: seq<string>)
    ensures |rs| == |steps|
    ensures forall k :: 0 <= k < |steps| ==> rs[k] == NatToString(k + 1) + NumberMark + steps[k]
  {
    seq(|steps|, k requires 0 <= k < |steps| => NatToString(k + 1) + NumberMark + steps[k])
  }

  /** The lines of the export up to the ingredients header. */
  function ExportHead(r: RecipeBody): (rs: seq<string>)
    ensures |rs| == 2 + |NumberLines(r)| + |DescriptionLines(r)| + 2
    ensures rs[0] == r.title && rs[1] == CategoryLabel + r.category
  {
    [r.title, CategoryLabel + r.category] + NumberLines(r) + DescriptionLines(r)
    + ["", IngredientsHeader]
  }

  /** The lines of the export, before they are joined with line breaks. */
  function ExportLines(r: RecipeBody): (rs: seq<string>)
    ensures |rs| == |ExportHead(r)| + |r.ingredients| + 2 + |r.steps|
    ensures rs[0] == r.title && rs[1] == CategoryLabel + r.category
  {
    ExportHead(r) + IngredientLines(r.ingredients)
    + ["", StepsHeader] + StepLines(r.steps)
  }

  /** No field of the recipe holds a line break. */
  predicate SingleLineFields(r: RecipeBody) {
    && '\n' !in r.title && '\n' !in r.category && '\n' !in r.description
    && (forall k :: 0 <= k < |r.ingredients| ==> '\n' !in r.ingredients[k])
    && (forall k :: 0 <= k < |r.steps| ==> '\n' !in r.steps[k])
  }

  /** No line of `ls` holds a line break. */
  predicate SingleLines(ls: seq<string>) {
    forall i :: 0 <= i < |ls| ==> '\n' !in ls[i]
  }

  /** None of the fixed texts holds a line break. */
  lemma FixedTextsSingle()
    ensures '\n' !in CategoryLabel && '\n' !in TimeLabel && '\n' !in TimeUnit
    ensures '\n' !in ServingsLabel && '\n' !in CaloriesLabel && '\n' !in CaloriesUnit
    ensures '\n' !in IngredientsHeader && '\n' !in StepsHeader
    ensures '\n' !in BulletMark && '\n' !in NumberMark
  { }

  lemma NoNewlineInLine(p: string, x: string)
    requires '\n' !in p && '\n' !in x
    ensures '\n' !in p + x
  { }

  lemma NoNewlineInNumber(n: int)
    ensures '\n' !in IntToString(n)
  {
    if n < 0 {
      var s := IntToString(n);
      assert s == [s[0]] + s[1..];
      NoNewlineInNat(0);
    }
  }

  lemma NoNewlineInNat(n: nat)
    ensures '\n' !in NatToString(n)
  { }

  lemma SingleLinesConcat(a: seq<string>, b: seq<string>)
    requires SingleLines(a) && SingleLines(b)
    ensures SingleLines(a + b)
  {
    forall i | 0 <= i < |a + b| ensures '\n' !in (a + b)[i] {
      if i >= |a| { assert (a + b)[i] == b[i - |a|]; }
    }
  }

  lemma NumberLinesSingle(r: RecipeBody)
    ensures SingleLines(NumberLines(r))
  {
    FixedTextsSingle();
    if Truthy(r.cookTime) {
      var n := IntToString(r.cookTime.value);
      NoNewlineInNumber(r.cookTime.value);
      NoNewlineInLine(TimeLabel, n);
      NoNewlineInLine(TimeLabel + n, TimeUnit);
    }
    if Truthy(r.servings) {
      NoNewlineInNumber(r.servings.value);
      NoNewlineInLine(ServingsLabel, IntToString(r.servings.value));
    }
    if Truthy(r.caloriesPerServing) {
      var n := IntToString(r.caloriesPerServing.value);
      NoNewlineInNumber(r.caloriesPerServing.value);
      NoNewlineInLine(CaloriesLabel, n);
      NoNewlineInLine(CaloriesLabel + n, CaloriesUnit);
    }
    SingleLinesConcat(CookTimeLines(r), ServingsLines(r));
    SingleLinesConcat(CookTimeLines(r) + ServingsLines(r), CaloriesLines(r));
  }

  lemma ExportHeadSingle(r: RecipeBody)
    requires SingleLineFields(r)
    ensures SingleLines(ExportHead(r))
  {
    var head := [r.title, CategoryLabel + r.category];
    FixedTextsSingle();
    NoNewlineInLine(CategoryLabel, r.category);
    assert SingleLines(head);
    NumberLinesSingle(r);
    SingleLinesConcat(head, NumberLines(r));
    SingleLinesConcat(head + NumberLines(r), DescriptionLines(r));
    SingleLinesConcat(head + NumberLines(r) + DescriptionLines(r), ["", IngredientsHeader]);
  }

  lemma IngredientLinesSingle(ings: seq<string>)
    requires forall k :: 0 <= k < |ings| ==> '\n' !in ings[k]
    ensures SingleLines(IngredientLines(ings))
  {
    FixedTextsSingle();
    forall k | 0 <= k < |ings| ensures '\n' !in IngredientLines(ings)[k] {
      NoNewlineInLine(BulletMark, ings[k]);
    }
  }

  lemma StepLinesSingle(steps: seq<string>)
    requires forall k :: 0 <= k < |steps| ==> '\n' !in steps[k]
    ensures SingleLines(StepLines(steps))
  {
    FixedTextsSingle();
    forall k | 0 <= k < |steps| ensures '\n' !in StepLines(steps)[k] {
      NoNewlineInNat(k + 1);
      NoNewlineInLine(NatToString(k + 1), NumberMark);
      NoNewlineInLine(NatToString(k + 1) + NumberMark, steps[k]);
    }
  }

  /** When no field holds a line break, no exported line does. */
  lemma ExportLinesSingle(r: RecipeBody)
    requires SingleLineFields(r)
    ensures SingleLines(ExportLines(r))
  {
    var a := ExportHead(r) + IngredientLines(r.ingredients);
    var b := a + ["", StepsHeader];
    assert ExportLines(r) == b + StepLines(r.steps);
    assert SingleLines(a) by {
      ExportHeadSingle(r);
      IngredientLinesSingle(r.ingredients);
      SingleLinesConcat(ExportHead(r), IngredientLines(r.ingredients));
    }
    assert SingleLines(b) by {
      FixedTextsSingle();
      SingleLinesConcat(a, ["", StepsHeader]);
    }
    StepLinesSingle(r.steps);
    SingleLinesConcat(b, StepLines(r.steps));
  }

  /** The `forEach` that pushes one bulleted line per ingredient. */
  method PushIngredients(lines: seq<string>, ings: seq<string>) returns (out: seq<string>)
    ensures out == lines + IngredientLines(ings)
  {
    out := lines;
    for i := 0 to |ings|
      invariant out == lines + IngredientLines(ings[..i])
    {
      assert IngredientLines(ings[..i + 1]) == IngredientLines(ings[..i]) + [BulletMark + ings[i]];
      out := out + [BulletMark + ings[i]];
    }
    assert ings[..|ings|] == ings;
  }

  /** The `forEach` that pushes one numbered line per step. */
  method PushSteps(lines: seq<string>, steps: seq<string>) returns (out: seq<string>)
    ensures out == lines + StepLines(steps)
  {
    out := lines;
    for i := 0 to |steps|
      invariant out == lines + StepLines(steps[..i])
    {
      assert StepLines(steps[..i + 1]) == StepLines(steps[..i]) + [NatToString(i + 1) + NumberMark + steps[i]];
      out := out + [NatToString(i + 1) + NumberMark + steps[i]];
    }
    assert steps[..|steps|] == steps;
  }

  /** The pushes of `recipeToPlainText` for the three optional number lines. */
  method PushNumbers(lines: seq<string>, r: RecipeBody) returns (out: seq<string>)
    ensures out == lines + NumberLines(r)
  {
    out := lines;
    if Truthy(r.cookTime) {
      out := out + [TimeLabel + IntToString(r.cookTime.value) + TimeUnit];
    }
    assert out == lines + CookTimeLines(r);
    ghost var timed := out;
    if Truthy(r.servings) {
      out := out + [ServingsLabel + IntToString(r.servings.value)];
    }
    assert out == timed + ServingsLines(r);
    ghost var served := out;
    if Truthy(r.caloriesPerServing) {
      out := out + [CaloriesLabel + IntToString(r.caloriesPerServing.value) + CaloriesUnit];
    }
    assert out == served + CaloriesLines(r);
  }

  /** The pushes of `recipeToPlainText` for the description and the blank line
      before it. */
  method PushDescription(lines: seq<string>, r: RecipeBody) returns (out: seq<string>)
    ensures out == lines + DescriptionLines(r)
  {
    out := lines;
    if r.description != "" {
      out := out + [""];
      out := out + [r.description];
    }
  }

  /** The pushes of `recipeToPlainText` up to the ingredients header. */
  method PushHead(r: RecipeBody) returns (lines: seq<string>)
    ensures lines == ExportHead(r)
  {
    lines := [r.title];
    lines := lines + [CategoryLabel + r.category];
    lines := PushNumbers(lines, r);
    lines := PushDescription(lines, r);
    ghost var described := lines;
    lines := lines + [""];
    lines := lines + [IngredientsHeader];
    assert lines == described + ["", IngredientsHeader];
  }

  /** `recipeToPlainText`: the lines are pushed one by one, then joined with
      line breaks. */
  method RecipeToPlainText(r: RecipeBody) returns (text: string)
    ensures text == Join(ExportLines(r), '\n')
    ensures SingleLineFields(r) ==> Split(text, '\n') == ExportLines(r)
  {
    var lines := PushHead(r);
    lines := PushIngredients(lines, r.ingredients);
    lines := lines + [""];
    lines := lines + [StepsHeader];
    lines := PushSteps(lines, r.steps);
    assert lines == ExportLines(r);
    text := Join(lines, '\n');
    if SingleLineFields(r) {
      ExportSplits(r);
    }
  }

  /** A text exported from a recipe without line breaks in its fields splits
      back into exactly the exported lines. */
  lemma ExportSplits(r: RecipeBody)
    requires SingleLineFields(r)
    ensures Split(Join(ExportLines(r), '\n'), '\n') == ExportLines(r)
  {
    ExportLinesSingle(r);
    SplitJoin(ExportLines(r), '\n');
  }

  // ---------------------------------------------------------------------------
  // Import
  // ---------------------------------------------------------------------------

  /** The text cut at line breaks, an optional carriage return dropped from
      each piece, and every line trimmed. */
  function ParseLines(text: string): (ls: seq<string>)
    ensures |ls| == |Split(text, '\n')|
    ensures forall i :: 0 <= i < |ls| ==> ls[i] == Trim(Split(text, '\n')[i])
  {
    var pieces := Split(text, '\n');
    forall i | 0 <= i < |pieces| ensures Trim(StripCR(pieces[i])) == Trim(pieces[i]) {
      TrimStripCR(pieces[i]);
    }
    seq(|pieces|, i requires 0 <= i < |pieces| => Trim(StripCR(pieces[i])))
  }

  /** The lines after the leading blank ones. */
  function DropBlanks(ls: seq<string>): (r: seq<string>)
    ensures |r| <= |ls| && r == ls[|ls| - |r|..]
    ensures forall i :: 0 <= i < |ls| - |r| ==> ls[i] == ""
    ensures r == [] || r[0] != ""
  {
    if |ls| > 0 && ls[0] == "" then
      var rest := ls[1..];
      var r := DropBlanks(rest);
      assert rest[|rest| - |r|..] == ls[|ls| - |r|..];
      assert forall i :: 1 <= i < |ls| - |r| ==> ls[i] == rest[i - 1];
      r
    else ls
  }

  lemma DropBlanksOfNonBlank(ls: seq<string>)
    requires ls != [] && ls[0] != ""
    ensures DropBlanks(ls) == ls
  { }

  /** `lines.shift() || ''`: the line at `i`, or `''` past the end. */
  function At(ls: seq<string>, i: nat): string {
    if i < |ls| then ls[i] else ""
  }

  /** What remains after `n` calls of `shift`. */
  function Shifted(ls: seq<string>, n: nat): (r: seq<string>)
    ensures |ls| <= n ==> r == []
    ensures n < |ls| ==> r == ls[n..]
  {
    if |ls| <= n then [] else ls[n..]
  }

  /** The index of the first blank line, or the length when there is none. */
  function FirstBlank(ls: seq<string>): (j: nat)
    ensures j <= |ls|
    ensures forall i :: 0 <= i < j ==> ls[i] != ""
    ensures j < |ls| ==> ls[j] == ""
  {
    if |ls| == 0 || ls[0] == "" then 0 else 1 + FirstBlank(ls[1..])
  }

  lemma FirstBlankUnique(ls: seq<string>, j: nat)
    requires j <= |ls|
    requires forall i :: 0 <= i < j ==> ls[i] != ""
    requires j < |ls| ==> ls[j] == ""
    ensures FirstBlank(ls) == j
  { }

  predicate IsBullet(c: char) {
    c == '-' || c == '•'
  }

  /** The replacement of `^[-•]\s*` by nothing: one leading bullet and the white
      space after it are removed. */
  function StripBullet(line: string): (r: string)
    ensures line != [] && IsBullet(line[0]) ==> r == TrimStart(line[1..])
    ensures line == [] || !IsBullet(line[0]) ==> r == line
  {
    if line != [] && IsBullet(line[0]) then TrimStart(line[1..]) else line
  }

  /** The replacement of `^\d+\.\s*` by nothing: a leading run of digits followed
      by a dot, and the white space after the dot, are removed. */
  function StripStepNumber(line: string): (r: string)
    ensures |r| <= |line|
  {
    var k := LeadingDigits(line);
    if 1 <= k < |line| && line[k] == '.' then TrimStart(line[k + 1..]) else line
  }

  /** A line is changed exactly when some non-empty run of digits at its start is
      followed by a dot; it then loses that prefix, the dot and the white space
      after it. */
  lemma StripStepNumberCases(line: string)
    ensures (forall j :: 1 <= j < |line| && line[j] == '.' ==> !AllDigits(line[..j])) ==>
              StripStepNumber(line) == line
    ensures forall j :: 1 <= j < |line| && line[j] == '.' && AllDigits(line[..j]) ==>
              StripStepNumber(line) == TrimStart(line[j + 1..])
  {
    forall j | 1 <= j < |line| && line[j] == '.' && AllDigits(line[..j])
      ensures StripStepNumber(line) == TrimStart(line[j + 1..])
    {
      assert line == line[..j] + line[j..];
      LeadingDigitsOf(line[..j], line[j..]);
    }
  }

  function Bullets(ls: seq<string>): (r: seq<string>)
    ensures |r| == |ls|
    ensures forall i :: 0 <= i < |ls| ==> r[i] == StripBullet(ls[i])
  {
    seq(|ls|, i requires 0 <= i < |ls| => StripBullet(ls[i]))
  }

  function StepTexts(ls: seq<string>): (r: seq<string>)
    ensures |r| == |ls|
    ensures forall i :: 0 <= i < |ls| ==> r[i] == StripStepNumber(ls[i])
  {
    seq(|ls|, i requires 0 <= i < |ls| => StripStepNumber(ls[i]))
  }

  /** The trimmed lines after the leading blank ones: title, category and
      description come first. */
  function HeadLines(ls: seq<string>): seq<string> {
    DropBlanks(ls)
  }

  /** The lines after the description, without the blank ones that lead them. */
  function BodyLines(ls: seq<string>): (b: seq<string>)
    ensures b == [] || b[0] != ""
  {
    DropBlanks(Shifted(HeadLines(ls), 3))
  }

  /** The ingredients are the body lines up to the first blank one, bullets
      removed; the steps are the non-blank lines after it, numbers removed. */
  function Sections(b: seq<string>): (seq<string>, seq<string>) {
    var j := FirstBlank(b);
    (Bullets(b[..j]), StepTexts(NonBlank(b[j..])))
  }

  /** The record read from trimmed lines; the numbers are null. */
  function ParsedLines(ls: seq<string>): (r: RecipeBody)
    ensures r.cookTime == None && r.servings == None && r.caloriesPerServing == None
    ensures r.title == At(HeadLines(ls), 0) && r.category == At(HeadLines(ls), 1)
    ensures r.description == At(HeadLines(ls), 2)
  {
    var (ingredients, steps) := Sections(BodyLines(ls));
    RecipeBody(At(HeadLines(ls), 0), At(HeadLines(ls), 1), None, None, None,
      At(HeadLines(ls), 2), ingredients, steps)
  }

  /** The record `parseRecipeFromTxt` returns, stated at once. */
  function ParsedBody(text: string): RecipeBody {
    ParsedLines(ParseLines(text))
  }

  datatype Mode = IngredientsMode | StepsMode

  lemma BulletsStep(ls: seq<string>, i: nat)
    requires i < |ls|
    ensures Bullets(ls[..i + 1]) == Bullets(ls[..i]) + [StripBullet(ls[i])]
  {
    assert ls[..i + 1][..i] == ls[..i];
  }

  lemma NonBlankStep(ls: seq<string>, a: nat, i: nat)
    requires a <= i < |ls|
    ensures NonBlank(ls[a..i + 1]) == NonBlank(ls[a..i]) + (if ls[i] == "" then [] else [ls[i]])
  {
    assert ls[a..i + 1][..i - a] == ls[a..i];
  }

  lemma StepTextsSnoc(n: seq<string>, x: string)
    ensures StepTexts(n + [x]) == StepTexts(n) + [StripStepNumber(x)]
  { }

  lemma StepTextsStep(ls: seq<string>, a: nat, i: nat)
    requires a <= i < |ls|
    ensures StepTexts(NonBlank(ls[a..i + 1]))
         == StepTexts(NonBlank(ls[a..i])) + (if ls[i] == "" then [] else [StripStepNumber(ls[i])])
  {
    NonBlankStep(ls, a, i);
    if ls[i] != "" {
      StepTextsSnoc(NonBlank(ls[a..i]), ls[i]);
    } else {
      assert NonBlank(ls[a..i]) + [] == NonBlank(ls[a..i]);
    }
  }

  /** The `forEach` of `parseRecipeFromTxt` over the body lines: each non-blank
      line is pushed to the ingredients or the steps, and the first blank line
      after an ingredient switches to the steps. */
  method ReadSections(lines: seq<string>) returns (ingredients: seq<string>, steps: seq<string>)
    requires lines == [] || lines[0] != ""
    ensures (ingredients, steps) == Sections(lines)
  {
    ingredients := [];
    steps := [];
    var mode := IngredientsMode;
    ghost var j := FirstBlank(lines);
    for i := 0 to |lines|
      invariant mode == if i <= j then IngredientsMode else StepsMode
      invariant ingredients == Bullets(lines[..if i <= j then i else j])
      invariant steps == StepTexts(NonBlank(lines[if i <= j then i else j..i]))
    {
      var line := lines[i];
      ghost var a := if i <= j then i else j;
      StepTextsStep(lines, a, i);
      if line == "" {
        assert j <= i;
        if mode == IngredientsMode && |ingredients| > 0 {
          mode := StepsMode;
        }
      } else if mode == IngredientsMode {
        BulletsStep(lines, i);
        ingredients := ingredients + [StripBullet(line)];
      } else {
        steps := steps + [StripStepNumber(line)];
      }
    }
    assert lines[j..|lines|] == lines[j..];
  }

  /** A `while` loop of `parseRecipeFromTxt` that shifts off blank lines. */
  method SkipBlanks(lines: seq<string>) returns (out: seq<string>)
    ensures out == DropBlanks(lines)
  {
    out := lines;
    while |out| > 0 && out[0] == ""
      invariant DropBlanks(out) == DropBlanks(lines)
      decreases |out|
    {
      out := out[1..];
    }
  }

  /** `lines.shift() || ''`. */
  method Shift(lines: seq<string>) returns (first: string, rest: seq<string>)
    ensures first == At(lines, 0) && rest == Shifted(lines, 1)
  {
    first := "";
    rest := lines;
    if |lines| > 0 {
      first := lines[0];
      rest := lines[1..];
    }
  }

  lemma ShiftedStep(ls: seq<string>, n: nat)
    ensures At(Shifted(ls, n), 0) == At(ls, n)
    ensures Shifted(Shifted(ls, n), 1) == Shifted(ls, n + 1)
  { }

  /** `parseRecipeFromTxt` after the text is cut into trimmed lines: blank lines
      are shifted off, three header lines are shifted, blank lines are shifted
      again, then the body is read. */
  method ReadRecipeLines(ls: seq<string>) returns (r: RecipeBody)
    ensures r == ParsedLines(ls)
  {
    var lines := SkipBlanks(ls);
    ghost var head := lines;
    var title, category, description;
    title, lines := Shift(lines);
    ShiftedStep(head, 0);
    assert lines == Shifted(head, 1);
    category, lines := Shift(lines);
    ShiftedStep(head, 1);
    description, lines := Shift(lines);
    ShiftedStep(head, 2);
    lines := SkipBlanks(lines);
    var ingredients, steps := ReadSections(lines);
    r := RecipeBody(title, category, None, None, None, description, ingredients, steps);
  }

  /** `parseRecipeFromTxt`. */
  method ParseRecipeFromTxt(text: string) returns (r: RecipeBody)
    ensures r == ParsedBody(text)
  {
    var lines := ParseLines(text);
    r := ReadRecipeLines(lines);
  }

  /** The import is rejected when it finds no title or no category. */
  predicate Importable(r: RecipeBody) {
    r.title != "" && r.category != ""
  }

  // ---------------------------------------------------------------------------
  // Export followed by import
  // ---------------------------------------------------------------------------

  /** The trimmed remainder of a marked line after its mark: empty when the text
      is all white space, else one space and the text trimmed at its end. */
  function MarkTail(x: string): string {
    if AllSpace(x) then "" else " " + TrimEnd(x)
  }

  lemma TrimEndOfNonSpace(p: string)
    requires p != [] && !IsSpace(p[|p| - 1])
    ensures TrimEnd(p) == p
  {
    SpanEndUnique(p, |p|);
  }

  lemma AllSpaceAfterSpace(x: string)
    ensures AllSpace(" " + x) <==> AllSpace(x)
  {
    assert forall i :: 0 <= i < |x| ==> (" " + x)[i + 1] == x[i];
  }

  /** Trimming a line made of a mark, one space and a text. */
  lemma MarkedTrim(p: string, x: string)
    requires p != [] && !IsSpace(p[0]) && !IsSpace(p[|p| - 1])
    ensures Trim(p + " " + x) == p + MarkTail(x)
  {
    assert p + " " + x == p + (" " + x);
    TrimEndAppend(p, " " + x);
    AllSpaceAfterSpace(x);
    if AllSpace(x) {
      TrimEndOfNonSpace(p);
      TrimStartOfNonSpace(p);
    } else {
      TrimEndAppend(" ", x);
      assert !AllSpace(x);
      TrimStartOfNonSpace(p + MarkTail(x));
    }
  }

  lemma MarkTailTrim(x: string)
    ensures TrimStart(MarkTail(x)) == Trim(x)
  {
    if !AllSpace(x) {
      TrimStartAppend(" ", TrimEnd(x));
      TrimCommutes(x);
    }
  }

  /** The bullet the export writes is the one the import removes. */
  lemma BulletLineParsed(x: string)
    ensures Trim(BulletMark + x) != ""
    ensures StripBullet(Trim(BulletMark + x)) == Trim(x)
  {
    assert BulletMark + x == "-" + " " + x;
    MarkedTrim("-", x);
    var line := "-" + MarkTail(x);
    assert line[1..] == MarkTail(x);
    MarkTailTrim(x);
  }

  lemma StripStepNumberOf(d: string, t: string)
    requires |d| >= 1 && AllDigits(d)
    ensures StripStepNumber(d + ("." + t)) == TrimStart(t)
  {
    var line := d + ("." + t);
    LeadingDigitsOf(d, "." + t);
    assert line[|d|] == '.';
    assert line[|d| + 1..] == t;
  }

  lemma NumberMarkSplit(d: string, x: string)
    ensures d + NumberMark + x == (d + ".") + " " + x
  { }

  lemma ConcatAssoc(a: string, b: string, c: string)
    ensures (a + b) + c == a + (b + c)
  { }

  lemma DigitsLineTrim(d: string, x: string)
    requires |d| >= 1 && AllDigits(d)
    ensures Trim(d + NumberMark + x) == d + ("." + MarkTail(x))
  {
    NumberMarkSplit(d, x);
    assert IsDigit((d + ".")[0]);
    MarkedTrim(d + ".", x);
    ConcatAssoc(d, ".", MarkTail(x));
  }

  lemma DigitsLineParsed(d: string, x: string)
    requires |d| >= 1 && AllDigits(d)
    ensures Trim(d + NumberMark + x) != ""
    ensures StripStepNumber(Trim(d + NumberMark + x)) == Trim(x)
  {
    DigitsLineTrim(d, x);
    StripStepNumberOf(d, MarkTail(x));
    MarkTailTrim(x);
  }

  /** The step number the export writes is the one the import removes. */
  lemma StepLineParsed(n: nat, x: string)
    ensures Trim(NatToString(n) + NumberMark + x) != ""
    ensures StripStepNumber(Trim(NatToString(n) + NumberMark + x)) == Trim(x)
  {
    DigitsLineParsed(NatToString(n), x);
  }

  /** Reading an export line by line gives back the exported lines trimmed. */
  lemma ExportParsesToLines(r: RecipeBody)
    requires SingleLineFields(r)
    ensures ParseLines(Join(ExportLines(r), '\n')) == TrimAll(ExportLines(r))
  {
    ExportSplits(r);
  }

  /** The title read back from an export is the trimmed title, and the category
      read back is the whole trimmed category line, label included. */
  lemma ExportThenImportHeader(r: RecipeBody)
    requires SingleLineFields(r) && !AllSpace(r.title)
    ensures ParsedBody(Join(ExportLines(r), '\n')).title == Trim(r.title)
    ensures ParsedBody(Join(ExportLines(r), '\n')).category == Trim(CategoryLabel + r.category)
  {
    ExportParsesToLines(r);
    var ls := TrimAll(ExportLines(r));
    DropBlanksOfNonBlank(ls);
  }

  // The two section headers are their own trim and survive the bullet and
  // number removal unchanged.

  lemma IngredientsHeaderTrimmed()
    ensures Trim(IngredientsHeader) == IngredientsHeader
  {
    TrimOfTrimmed(IngredientsHeader);
  }

  lemma StepsHeaderTrimmed()
    ensures Trim(StepsHeader) == StepsHeader
  {
    TrimOfTrimmed(StepsHeader);
  }

  lemma IngredientsHeaderKept()
    ensures StripBullet(IngredientsHeader) == IngredientsHeader
  { }

  lemma StepsHeaderKept()
    ensures StripStepNumber(StepsHeader) == StepsHeader
  {
    assert !IsDigit(StepsHeader[0]);
  }

  /** The lines of an export without description and numbers, in the order the
      import meets them. */
  function PlainLayout(t: string, c: string, ih: string, sh: string,
                       il: seq<string>, sl: seq<string>): seq<string> {
    [t, c, "", ih] + il + ["", sh] + sl
  }

  lemma PlainExportLayout(r: RecipeBody)
    requires r.description == "" && NumberLines(r) == []
    ensures ExportLines(r) == PlainLayout(r.title, CategoryLabel + r.category, IngredientsHeader,
                                          StepsHeader, IngredientLines(r.ingredients),
                                          StepLines(r.steps))
  {
    assert ExportHead(r) == [r.title, CategoryLabel + r.category, "", IngredientsHeader];
  }

  lemma MapAllLayout(f: string -> string, t: string, c: string, ih: string, sh: string,
                     il: seq<string>, sl: seq<string>)
    requires f("") == "" && f(ih) == ih && f(sh) == sh
    ensures MapAll(f, PlainLayout(t, c, ih, sh, il, sl))
         == PlainLayout(f(t), f(c), ih, sh, MapAll(f, il), MapAll(f, sl))
  {
    var head, mid := [t, c, "", ih], ["", sh];
    MapAllAppend(f, head + il + mid, sl);
    MapAllAppend(f, head + il, mid);
    MapAllAppend(f, head, il);
    assert MapAll(f, head) == [f(t), f(c), "", ih];
    assert MapAll(f, mid) == ["", sh];
  }

  lemma TrimAllLayout(t: string, c: string, ih: string, sh: string,
                      il: seq<string>, sl: seq<string>)
    requires Trim(ih) == ih && Trim(sh) == sh
    ensures TrimAll(PlainLayout(t, c, ih, sh, il, sl))
         == PlainLayout(Trim(t), Trim(c), ih, sh, TrimAll(il), TrimAll(sl))
  {
    TrimEmpty();
    MapAllLayout(Trim, t, c, ih, sh, il, sl);
  }

  /** The body of an export splits at the blank line before the steps header. */
  lemma SectionsOfExport(ih: string, sh: string, ti: seq<string>, ts: seq<string>)
    requires ih != "" && sh != ""
    requires forall k :: 0 <= k < |ti| ==> ti[k] != ""
    requires forall k :: 0 <= k < |ts| ==> ts[k] != ""
    ensures Sections([ih] + ti + ["", sh] + ts) == (Bullets([ih] + ti), StepTexts([sh] + ts))
  {
    var b := [ih] + ti + ["", sh] + ts;
    var j := 1 + |ti|;
    FirstBlankUnique(b, j);
    assert b[..j] == [ih] + ti;
    assert b[j..] == [""] + ([sh] + ts);
    NonBlankAppend([""], [sh] + ts);
    NonBlankOfNonBlank([sh] + ts);
    assert NonBlank([""]) == [];
    assert NonBlank(b[j..]) == [sh] + ts;
  }

  /** How the import reads the lines of an export without description and
      numbers. */
  lemma ParsedLayout(t: string, c: string, ih: string, sh: string,
                     ti: seq<string>, ts: seq<string>)
    requires t != "" && ih != "" && sh != ""
    requires forall k :: 0 <= k < |ti| ==> ti[k] != ""
    requires forall k :: 0 <= k < |ts| ==> ts[k] != ""
    ensures ParsedLines(PlainLayout(t, c, ih, sh, ti, ts))
         == RecipeBody(t, c, None, None, None, "", Bullets([ih] + ti), StepTexts([sh] + ts))
  {
    var ls := PlainLayout(t, c, ih, sh, ti, ts);
    DropBlanksOfNonBlank(ls);
    assert HeadLines(ls) == ls;
    assert At(ls, 0) == t && At(ls, 1) == c && At(ls, 2) == "";
    var b := [ih] + ti + ["", sh] + ts;
    assert Shifted(ls, 3) == b;
    DropBlanksOfNonBlank(b);
    assert BodyLines(ls) == b;
    SectionsOfExport(ih, sh, ti, ts);
  }

  lemma BulletsOfItems(ings: seq<string>)
    ensures Bullets(TrimAll(IngredientLines(ings))) == TrimAll(ings)
  {
    forall k | 0 <= k < |ings| ensures StripBullet(Trim(BulletMark + ings[k])) == Trim(ings[k]) {
      BulletLineParsed(ings[k]);
    }
  }

  lemma BulletsCons(h: string, l: seq<string>)
    ensures Bullets([h] + l) == [StripBullet(h)] + Bullets(l)
  {
    BulletsAsMap([h] + l);
    BulletsAsMap(l);
    assert ([h] + l)[1..] == l;
  }

  lemma BulletsAsMap(ls: seq<string>)
    ensures Bullets(ls) == MapAll(StripBullet, ls)
  {
  }

  lemma BulletsOfExport(ings: seq<string>)
    ensures Bullets([IngredientsHeader] + TrimAll(IngredientLines(ings)))
         == [IngredientsHeader] + TrimAll(ings)
  {
    IngredientsHeaderKept();
    BulletsCons(IngredientsHeader, TrimAll(IngredientLines(ings)));
    BulletsOfItems(ings);
  }

  lemma StepTextsOfItems(steps: seq<string>)
    ensures StepTexts(TrimAll(StepLines(steps))) == TrimAll(steps)
  {
    forall k | 0 <= k < |steps|
      ensures StripStepNumber(Trim(NatToString(k + 1) + NumberMark + steps[k])) == Trim(steps[k])
    {
      StepLineParsed(k + 1, steps[k]);
    }
  }

  lemma StepTextsCons(h: string, l: seq<string>)
    ensures StepTexts([h] + l) == [StripStepNumber(h)] + StepTexts(l)
  {
    StepTextsAsMap([h] + l);
    StepTextsAsMap(l);
    assert ([h] + l)[1..] == l;
  }

  lemma StepTextsAsMap(ls: seq<string>)
    ensures StepTexts(ls) == MapAll(StripStepNumber, ls)
  {
  }

  lemma StepTextsOfExport(steps: seq<string>)
    ensures StepTexts([StepsHeader] + TrimAll(StepLines(steps)))
         == [StepsHeader] + TrimAll(steps)
  {
    StepsHeaderKept();
    StepTextsCons(StepsHeader, TrimAll(StepLines(steps)));
    StepTextsOfItems(steps);
  }

  lemma ExportedItemsNonBlank(r: RecipeBody)
    ensures forall k :: 0 <= k < |r.ingredients| ==> TrimAll(IngredientLines(r.ingredients))[k] != ""
    ensures forall k :: 0 <= k < |r.steps| ==> TrimAll(StepLines(r.steps))[k] != ""
  {
    IngredientLinesNonBlank(r.ingredients);
    StepLinesNonBlank(r.steps);
  }

  lemma IngredientLinesNonBlank(ings: seq<string>)
    ensures forall k :: 0 <= k < |ings| ==> TrimAll(IngredientLines(ings))[k] != ""
  {
    var ls := IngredientLines(ings);
    forall k | 0 <= k < |ings| ensures TrimAll(ls)[k] != "" {
      assert TrimAll(ls)[k] == Trim(BulletMark + ings[k]);
      BulletLineParsed(ings[k]);
    }
  }

  lemma StepLinesNonBlank(steps: seq<string>)
    ensures forall k :: 0 <= k < |steps| ==> TrimAll(StepLines(steps))[k] != ""
  {
    var ls := StepLines(steps);
    forall k | 0 <= k < |steps| ensures TrimAll(ls)[k] != "" {
      StepLineNonBlank(k + 1, steps[k], ls[k]);
    }
  }

  lemma StepLineNonBlank(n: nat, x: string, line: string)
    requires line == NatToString(n) + NumberMark + x
    ensures Trim(line) != ""
  {
    StepLineParsed(n, x);
  }

  /** What importing an export gives back, for a recipe without description or
      numbers: the trimmed title; the whole category line, label included; an
      empty description; and the ingredients and the steps trimmed, each list
      led by its own section header. The numbers come back null. */
  lemma ExportThenImport(r: RecipeBody)
    requires SingleLineFields(r) && !AllSpace(r.title)
    requires r.description == ""
    requires !Truthy(r.cookTime) && !Truthy(r.servings) && !Truthy(r.caloriesPerServing)
    ensures ParsedBody(Join(ExportLines(r), '\n'))
         == RecipeBody(Trim(r.title), Trim(CategoryLabel + r.category), None, None, None, "",
                       [IngredientsHeader] + TrimAll(r.ingredients),
                       [StepsHeader] + TrimAll(r.steps))
  {
    var c := CategoryLabel + r.category;
    var il := IngredientLines(r.ingredients);
    var sl := StepLines(r.steps);
    ExportParsesToLines(r);
    PlainExportLayout(r);
    IngredientsHeaderTrimmed();
    StepsHeaderTrimmed();
    TrimAllLayout(r.title, c, IngredientsHeader, StepsHeader, il, sl);
    ExportedItemsNonBlank(r);
    ParsedLayout(Trim(r.title), Trim(c), IngredientsHeader, StepsHeader, TrimAll(il), TrimAll(sl));
    BulletsOfExport(r.ingredients);
    StepTextsOfExport(r.steps);
  }
}
