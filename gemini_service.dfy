/**
 * The request builders and result fallbacks of the generative-AI service layer.
 * The remote model call and `JSON.parse` are parameters: `network` answers a request with
 * the response text or fails (`None`, standing for a thrown error), and `parse` reads a
 * text as a value of the expected shape or fails.
 */
module GeminiService {
  import opened Wrappers
  import opened Text
  import opened Records

  // ---------------------------------------------------------------- label analysis

  datatype ManualIngredient = ManualIngredient(name: string, percentage: string)
  datatype InlineImage = InlineImage(data: string, mimeType: string)

  /**
   * One part of the label-analysis request: the fixed analysis prompt (which embeds the
   * manual-override context), the user's text, or an inline image.
   */
  datatype Part =
    | Prompt(manualContext: string)
    | TextPart(text: string)
    | InlineData(image: InlineImage)

  datatype IngredientRole = IngredientRole(name: string, role: string, impact: string)
  datatype LabelAnalysis = LabelAnalysis(
    nutritionalSummary: string,
    ingredientBreakdown: seq<IngredientRole>,
    healthRecommendations: seq<string>)

  const ManualOverridesPrefix := "\nMANUAL OVERRIDES (Use these as absolute ground truth): "
  const TextInputPrefix := "Text input from user: "

  function FormatManual(d: ManualIngredient): string {
    d.name + ": " + d.percentage + "%"
  }

  function FormatAll(ds: seq<ManualIngredient>): (r: seq<string>)
    ensures |r| == |ds| && forall k :: 0 <= k < |ds| ==> r[k] == FormatManual(ds[k])
  {
    seq(|ds|, k requires 0 <= k < |ds| => FormatManual(ds[k]))
  }

  /** The manual-override context that the analysis prompt embeds. */
  function ManualContext(manualData: Option<seq<ManualIngredient>>): (r: string)
    ensures r == "" <==> manualData.None? || |manualData.value| == 0
    ensures r != "" ==> StartsWith(r, ManualOverridesPrefix)
  {
    if manualData.Some? && |manualData.value| > 0 then
      ManualOverridesPrefix + Join(", ", FormatAll(manualData.value))
    else ""
  }

  /** One override gives the prefix and exactly its "name: pct%" entry. */
  lemma ManualContextSingle(d: ManualIngredient)
    ensures ManualContext(Some([d])) == ManualOverridesPrefix + d.name + ": " + d.percentage + "%"
  {
  }

  /** Entries appear in input order: one more override appends ", " and its entry. */
  lemma ManualContextAppend(ds: seq<ManualIngredient>, d: ManualIngredient)
    requires |ds| >= 1
    ensures ManualContext(Some(ds + [d])) == ManualContext(Some(ds)) + ", " + FormatManual(d)
  {
    assert FormatAll(ds + [d]) == FormatAll(ds) + [FormatManual(d)];
    JoinAppend(", ", FormatAll(ds), FormatManual(d));
  }

  /** `if (textInput)`: the text is given and non-empty. */
  predicate HasText(textInput: Option<string>) {
    textInput.Some? && textInput.value != ""
  }

  /** The request parts the label analysis sends, specified as a value. */
  function LabelParts(textInput: Option<string>, imageInput: Option<InlineImage>,
                      manualData: Option<seq<ManualIngredient>>): seq<Part>
  {
    [Prompt(ManualContext(manualData))]
    + (if HasText(textInput) then [TextPart(TextInputPrefix + textInput.value)] else [])
    + (if imageInput.Some? then [InlineData(imageInput.value)] else [])
  }

  /** The prompt comes first, then the text part iff there is text, then the image part iff there is one. */
  lemma LabelPartsShape(textInput: Option<string>, imageInput: Option<InlineImage>,
                        manualData: Option<seq<ManualIngredient>>)
    ensures var ps := LabelParts(textInput, imageInput, manualData);
      && 1 <= |ps| <= 3
      && ps[0] == Prompt(ManualContext(manualData))
      && |ps| == 1 + (if HasText(textInput) then 1 else 0) + (if imageInput.Some? then 1 else 0)
      && (HasText(textInput) <==> |ps| >= 2 && ps[1].TextPart?)
      && (HasText(textInput) ==> ps[1] == TextPart(TextInputPrefix + textInput.value))
      && (imageInput.Some? <==> ps[|ps| - 1].InlineData?)
      && (imageInput.Some? ==> ps[|ps| - 1] == InlineData(imageInput.value))
  {
  }

  /**
   * `analyzeLabel`: builds the context and the parts step by step, then asks the service.
   * Any failure of the call or of the parse yields `None` instead of an error.
   */
  method AnalyzeLabel(textInput: Option<string>, imageInput: Option<InlineImage>,
                      manualData: Option<seq<ManualIngredient>>,
                      network: seq<Part> -> Option<string>,
                      parse: string -> Option<LabelAnalysis>)
    returns (parts: seq<Part>, result: Option<LabelAnalysis>)
    ensures parts == LabelParts(textInput, imageInput, manualData)
    ensures network(parts).None? ==> result.None?
    ensures network(parts).Some? ==> result == parse(network(parts).value)
  {
    var manualContext := "";
    if manualData.Some? && |manualData.value| > 0 {
      manualContext := ManualOverridesPrefix + Join(", ", FormatAll(manualData.value));
    }
    parts := [Prompt(manualContext)];
    if textInput.Some? && textInput.value != "" {
      parts := parts + [TextPart(TextInputPrefix + textInput.value)];
    }
    if imageInput.Some? {
      parts := parts + [InlineData(imageInput.value)];
    }
    var response := network(parts);
    if response.Some? {
      result := parse(response.value);
    } else {
      result := None;
    }
  }

  // ---------------------------------------------------------------- health insight

  function ReflectionLine(e: Entry): string {
    e.key + ": " + e.value
  }

  function ReflectionLines(es: seq<Entry>): (r: seq<string>)
    ensures |r| == |es| && forall k :: 0 <= k < |es| ==> r[k] == ReflectionLine(es[k])
  {
    seq(|es|, k requires 0 <= k < |es| => ReflectionLine(es[k]))
  }

  /** The reflections as text: one "key: value" line per entry, in entry order. */
  function ReflectionString(es: seq<Entry>): string {
    Join("\n", ReflectionLines(es))
  }

  /**
   * Reading the reflection string back line by line gives exactly one "key: value" line per
   * entry, in order, with no trailing empty line — provided no key or value holds a newline.
   */
  lemma ReflectionStringLines(es: seq<Entry>)
    requires |es| >= 1
    requires forall k :: 0 <= k < |es| ==> '\n' !in es[k].key && '\n' !in es[k].value
    ensures Split('\n', ReflectionString(es)) == ReflectionLines(es)
  {
    var lines := ReflectionLines(es);
    forall k | 0 <= k < |lines| ensures '\n' !in lines[k] {
      assert lines[k] == es[k].key + ": " + es[k].value;
    }
    SplitJoin('\n', lines);
  }

  /** No reflections give an empty string. */
  lemma ReflectionStringEmpty()
    ensures ReflectionString([]) == ""
  {
  }

  // ---------------------------------------------------------------- meal suggestions

  datatype MealSuggestion = MealSuggestion(
    name: string, description: string, prepTime: string, difficulty: string,
    ingredients: seq<string>, instructions: seq<string>)

  /** The parsed response; `meals` may be missing from what the model returns. */
  datatype MealsPayload = MealsPayload(meals: Option<seq<MealSuggestion>>)

  /** The three selections the meal prompt is built from. */
  datatype MealRequest = MealRequest(category: string, preference: string, ingredients: string)

  const EmptyMealsJson := "{\"meals\":[]}"
  const NoMeals := MealsPayload(Some([]))

  /** What `JSON.parse` makes of a text: it throws, it yields `null`, or it yields a value. */
  datatype Json<T> = Malformed | Null | Value(value: T)

  /**
   * The ingredients line of the meal prompt, `ingredients || "None provided"`: an empty list
   * reads "None provided"; any other list is sent as it is.
   */
  function IngredientsLine(ingredients: string): (r: string)
    ensures r != ""
    ensures ingredients == "" ==> r == "None provided"
    ensures ingredients != "" ==> r == ingredients
  {
    if ingredients == "" then "None provided" else ingredients
  }

  /** How `suggestMeals` turns one parse outcome into its return value (`None` is `null`). */
  predicate ReadsMealsAs(parsed: Json<MealsPayload>, r: Option<MealsPayload>) {
    && (parsed.Malformed? ==> r == Some(NoMeals))
    && (parsed.Null? ==> r.None?)
    && (parsed.Value? ==> r == Some(parsed.value))
  }

  /**
   * `suggestMeals` after the call: an empty response is read as the literal empty payload, a
   * text that does not parse gives the empty payload, and a text that parses to `null` is
   * returned as `null` (`None`).
   */
  function SuggestMeals(responseText: string, parse: string -> Json<MealsPayload>): (r: Option<MealsPayload>)
    ensures responseText != "" ==> ReadsMealsAs(parse(responseText), r)
    ensures responseText == "" ==> ReadsMealsAs(parse(EmptyMealsJson), r)
  {
    var text := if responseText == "" then EmptyMealsJson else responseText;
    match parse(text)
    case Malformed => Some(NoMeals)
    case Null => None
    case Value(p) => Some(p)
  }

  /** An empty response is answered exactly as the literal `{"meals":[]}` would be. */
  lemma EmptyResponseReadsLiteral(parse: string -> Json<MealsPayload>)
    ensures SuggestMeals("", parse) == SuggestMeals(EmptyMealsJson, parse)
  {
    assert EmptyMealsJson != "";
  }

  /** Whenever the parser reads the literal fallback as written, an empty response means no meals. */
  lemma EmptyResponseNoMeals(parse: string -> Json<MealsPayload>)
    requires parse(EmptyMealsJson) == Value(NoMeals)
    ensures SuggestMeals("", parse) == Some(NoMeals)
  {
  }

  // ---------------------------------------------------------------- weekly plan

  datatype PlannerConfig = PlannerConfig(
    diet: string, skill: string, budget: string,
    mealsPerDay: int, people: int, timeAvailable: int)

  datatype PlannedMeal = PlannedMeal(mealType: string, name: string, description: string)
  datatype PlanDay = PlanDay(day: int, meals: seq<PlannedMeal>)
  datatype WeeklyPlan = WeeklyPlan(days: seq<PlanDay>, groceryList: string)
}
