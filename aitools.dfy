/**
 * The AI-tools page: meal suggestions with a memo cache, the label reader with manual
 * overrides and image rotation, the weekly reflection check-in, and the weekly planner.
 * Each handler is a method on `Panel`, whose fields are the page's state; the remote
 * service's answer is a parameter (see GeminiService).
 */
module AITools {
  import opened Wrappers
  import opened Text
  import opened Records
  import opened GeminiService

  // ---------------------------------------------------------------- meal categories

  datatype MealCategory = NoCook | AvailableIngredients | LessThan5 | Smoothies | GoalBased
  datatype MealGoal = WeightGain | WeightLoss

  function CategoryId(c: MealCategory): string {
    match c
    case NoCook => "no-cook"
    case AvailableIngredients => "available-ingredients"
    case LessThan5 => "less-than-5"
    case Smoothies => "smoothies"
    case GoalBased => "goal-based"
  }

  function GoalId(g: MealGoal): string {
    match g
    case WeightGain => "weight-gain"
    case WeightLoss => "weight-loss"
  }

  /** The preference sent to the service: goal-based requests lead with the goal, or "General Balance" without one. */
  function PrefString(category: MealCategory, goal: Option<MealGoal>, mealPref: string): (r: string)
    ensures category != GoalBased ==> r == mealPref
    ensures category == GoalBased && goal.None? ==> r == "General Balance goal, " + mealPref
    ensures category == GoalBased && goal.Some? ==> r == GoalId(goal.value) + " goal, " + mealPref
  {
    if category == GoalBased then
      (if goal.Some? then GoalId(goal.value) else "General Balance") + " goal, " + mealPref
    else mealPref
  }

  /** The memo-cache key: category, preference and the trimmed, lower-cased ingredients, joined by "-". */
  function CacheKey(category: MealCategory, prefString: string, ingredients: string): string {
    CategoryId(category) + "-" + prefString + "-" + ToLower(Trim(ingredients))
  }

  /** Ingredient lists that differ only in letter case share one cache entry. */
  lemma CacheKeyIgnoresCase(c: MealCategory, p: string, a: string, b: string)
    requires EqualIgnoringCase(a, b)
    ensures CacheKey(c, p, a) == CacheKey(c, p, b)
  {
    TrimIgnoringCase(a, b);
  }

  /** Ingredient lists that differ only in surrounding whitespace share one cache entry. */
  lemma CacheKeyIgnoresPadding(c: MealCategory, p: string, lead: string, a: string, trail: string)
    requires AllSpace(lead) && AllSpace(trail)
    ensures CacheKey(c, p, lead + a + trail) == CacheKey(c, p, a)
  {
    TrimIgnoresPadding(lead, a, trail);
  }

  /**
   * The key is not injective: "-" separates the fields and may also occur inside them, so a
   * preference ending in "-" with no ingredients and the same preference without it plus the
   * ingredient list "-" are served by one cache entry.
   */
  lemma CacheKeyCollision(c: MealCategory, p: string)
    ensures p + "-" != p
    ensures CacheKey(c, p + "-", "") == CacheKey(c, p, "-")
  {
    var pre := CategoryId(c) + "-";
    TrimUnpadded("");
    TrimUnpadded("-");
    assert ToLower("-") == "-" by { assert LowerChar('-') == '-'; }
    assert CacheKey(c, p + "-", "") == pre + (p + "-") + "-" + "";
    assert CacheKey(c, p, "-") == pre + p + "-" + "-";
  }

  /**
   * The meals a response yields, `res.meals || []`; `None` when `suggestMeals` returned `null`,
   * so that reading `meals` throws.
   */
  function FetchedMeals(responseText: string, parse: string -> Json<MealsPayload>): (r: Option<seq<MealSuggestion>>)
    ensures r.None? <==> SuggestMeals(responseText, parse).None?
    ensures r.Some? && SuggestMeals(responseText, parse).value.meals.None? ==> r.value == []
    ensures r.Some? && SuggestMeals(responseText, parse).value.meals.Some? ==>
      r.value == SuggestMeals(responseText, parse).value.meals.value
  {
    match SuggestMeals(responseText, parse)
    case None => None
    case Some(payload) => Some(payload.meals.GetOr([]))
  }

  /** The ingredients line the service receives: a blank list reads "None provided". */
  lemma BlankIngredientsNoneProvided(ingredients: string)
    ensures AllSpace(ingredients) ==> IngredientsLine(Trim(ingredients)) == "None provided"
    ensures !AllSpace(ingredients) ==> IngredientsLine(Trim(ingredients)) == Trim(ingredients)
  {
    TrimEmptyIffAllSpace(ingredients);
  }

  /** The part of the page state that a meal request reads and writes. */
  datatype MealState = MealState(meals: seq<MealSuggestion>, loading: bool, cache: map<string, seq<MealSuggestion>>)

  /** The new meal state, and the request sent to the service (`None` when none is sent). */
  datatype MealStep = MealStep(state: MealState, request: Option<MealRequest>)

  /** `handleMealSuggest` as a transition on the meal state, given the page's selections. */
  function SuggestStep(category: Option<MealCategory>, goal: Option<MealGoal>, mealPref: string,
                       ingredients: string, st: MealState,
                       network: MealRequest -> Option<string>, parse: string -> Json<MealsPayload>): MealStep
  {
    if category.None? then MealStep(st, None)
    else
      var pref := PrefString(category.value, goal, mealPref);
      var key := CacheKey(category.value, pref, ingredients);
      if key in st.cache then MealStep(st.(meals := st.cache[key]), None)
      else
        var req := MealRequest(CategoryId(category.value), pref, Trim(ingredients));
        var fetched := if network(req).Some? then FetchedMeals(network(req).value, parse) else None;
        match fetched
        case None => MealStep(MealState([], false, st.cache), Some(req))
        case Some(ms) => MealStep(MealState(ms, false, st.cache[key := ms]), Some(req))
  }

  /** Without a category nothing changes and nothing is sent. */
  lemma SuggestWithoutCategory(goal: Option<MealGoal>, mealPref: string, ingredients: string, st: MealState,
                               network: MealRequest -> Option<string>, parse: string -> Json<MealsPayload>)
    ensures SuggestStep(None, goal, mealPref, ingredients, st, network, parse) == MealStep(st, None)
  {
  }

  /** A cache hit shows the cached meals, sends nothing, and leaves the cache and loading flag alone. */
  lemma SuggestHit(c: MealCategory, goal: Option<MealGoal>, mealPref: string, ingredients: string, st: MealState,
                   network: MealRequest -> Option<string>, parse: string -> Json<MealsPayload>)
    requires CacheKey(c, PrefString(c, goal, mealPref), ingredients) in st.cache
    ensures var r := SuggestStep(Some(c), goal, mealPref, ingredients, st, network, parse);
      && r.request.None?
      && r.state.meals == st.cache[CacheKey(c, PrefString(c, goal, mealPref), ingredients)]
      && r.state.loading == st.loading && r.state.cache == st.cache
  {
  }

  /**
   * A miss sends the request with the trimmed ingredients. Success shows the fetched meals and
   * caches them under exactly this key; a failed call, or a `null` answer whose `meals` cannot
   * be read, leaves the list empty and the cache as it was. Loading ends false either way.
   */
  lemma SuggestMiss(c: MealCategory, goal: Option<MealGoal>, mealPref: string, ingredients: string, st: MealState,
                    network: MealRequest -> Option<string>, parse: string -> Json<MealsPayload>)
    requires CacheKey(c, PrefString(c, goal, mealPref), ingredients) !in st.cache
    ensures var r := SuggestStep(Some(c), goal, mealPref, ingredients, st, network, parse);
      var req := MealRequest(CategoryId(c), PrefString(c, goal, mealPref), Trim(ingredients));
      var key := CacheKey(c, PrefString(c, goal, mealPref), ingredients);
      && r.request == Some(req)
      && !r.state.loading
      && (network(req).None? ==> r.state.meals == [] && r.state.cache == st.cache)
      && (network(req).Some? && FetchedMeals(network(req).value, parse).None? ==>
            r.state.meals == [] && r.state.cache == st.cache)
      && (network(req).Some? && FetchedMeals(network(req).value, parse).Some? ==>
            && r.state.meals == FetchedMeals(network(req).value, parse).value
            && r.state.cache == st.cache[key := r.state.meals])
  {
  }

  /** No request ever drops or changes a cached entry. */
  lemma SuggestKeepsCache(category: Option<MealCategory>, goal: Option<MealGoal>, mealPref: string,
                          ingredients: string, st: MealState,
                          network: MealRequest -> Option<string>, parse: string -> Json<MealsPayload>)
    ensures var r := SuggestStep(category, goal, mealPref, ingredients, st, network, parse);
      forall k :: k in st.cache ==> k in r.state.cache && r.state.cache[k] == st.cache[k]
  {
  }

  /** The cache memoises: after a successful miss, the same selections hit and show the same meals without a request. */
  lemma SuggestMemo(c: MealCategory, goal: Option<MealGoal>, mealPref: string, ingredients: string, st: MealState,
                    network: MealRequest -> Option<string>, parse: string -> Json<MealsPayload>)
    requires SuggestStep(Some(c), goal, mealPref, ingredients, st, network, parse).request.Some?
    requires network(SuggestStep(Some(c), goal, mealPref, ingredients, st, network, parse).request.value).Some?
    requires FetchedMeals(network(SuggestStep(Some(c), goal, mealPref, ingredients, st, network, parse).request.value).value, parse).Some?
    ensures var first := SuggestStep(Some(c), goal, mealPref, ingredients, st, network, parse);
      var second := SuggestStep(Some(c), goal, mealPref, ingredients, first.state, network, parse);
      second.request.None? && second.state == first.state
  {
    var key := CacheKey(c, PrefString(c, goal, mealPref), ingredients);
    var first := SuggestStep(Some(c), goal, mealPref, ingredients, st, network, parse);
    assert key !in st.cache;
    assert key in first.state.cache && first.state.cache[key] == first.state.meals;
  }

  // ---------------------------------------------------------------- manual overrides

  /** `filter((_, i) => i !== index)`: drop the element at position `index`, if there is one. */
  function WithoutIndex<T>(s: seq<T>, index: int): (r: seq<T>)
    ensures 0 <= index < |s| ==> r == s[..index] + s[index + 1..]
    ensures !(0 <= index < |s|) ==> r == s
    decreases |s|
  {
    if s == [] then []
    else (if index == 0 then [] else [s[0]]) + WithoutIndex(s[1..], index - 1)
  }

  /** Removing the entry just added restores the list. */
  lemma RemoveUndoesAdd<T>(s: seq<T>, x: T)
    ensures WithoutIndex(s + [x], |s|) == s
  {
    assert (s + [x])[..|s|] == s;
  }

  // ---------------------------------------------------------------- image rotation

  predicate IsQuarterTurn(r: int) {
    r == 0 || r == 90 || r == 180 || r == 270
  }

  /** The rotate button: `(prev + 90) % 360`. */
  function NextRotation(r: int): int {
    (r + 90) % 360
  }

  /** Rotating keeps the angle a quarter turn and moves it on by one. */
  lemma RotationStaysQuarter(r: int)
    requires IsQuarterTurn(r)
    ensures IsQuarterTurn(NextRotation(r)) && NextRotation(r) != r
  {
  }

  /** Four presses restore the starting angle. */
  lemma FourRotationsRestore(r: int)
    requires 0 <= r < 360
    ensures NextRotation(NextRotation(NextRotation(NextRotation(r)))) == r
  {
  }

  // ---------------------------------------------------------------- weekly reflections

  /** The seven categories of the weekly check-in. */
  const HealthCategoryIds: seq<string> := ["sleep", "energy", "food", "water", "activity", "stress", "mood"]

  function HealthCategorySet(): (r: set<string>)
    ensures |r| == |HealthCategoryIds| == 7
    ensures forall k :: 0 <= k < |HealthCategoryIds| ==> HealthCategoryIds[k] in r
  {
    var r := {"sleep", "energy", "food", "water", "activity", "stress", "mood"};
    assert "sleep"[0] == 's' && "energy"[0] == 'e' && "food"[0] == 'f' && "water"[0] == 'w';
    assert "activity"[0] == 'a' && "stress"[0] == 's' && "mood"[0] == 'm';
    assert "sleep"[1] == 'l' && "stress"[1] == 't';
    r
  }

  /**
   * The analysis gate counts keys, not categories; because every key is one of the seven
   * categories and no key repeats, "seven keys" is the same as "every category rated".
   */
  lemma {:induction false} AllRatedGate(es: seq<Entry>)
    requires DistinctKeys(es) && Keys(es) <= HealthCategorySet()
    ensures |es| >= |HealthCategoryIds| <==> Keys(es) == HealthCategorySet()
  {
    KeysCount(es);
    var all := HealthCategorySet();
    var missing := all - Keys(es);
    assert all == Keys(es) + missing;
    assert |all| == |Keys(es)| + |missing|;
  }

  // ---------------------------------------------------------------- weekly planner

  const DefaultPlannerConfig := PlannerConfig("Balanced", "Basic", "Moderate", 3, 1, 30)

  /** `days.find(d => d.day === day)`: the first day carrying that number. */
  function FindDay(days: seq<PlanDay>, day: int): (r: Option<PlanDay>)
    ensures r.None? <==> forall k :: 0 <= k < |days| ==> days[k].day != day
    ensures r.Some? ==> r.value.day == day && exists k :: (0 <= k < |days| && days[k] == r.value
      && forall j :: 0 <= j < k ==> days[j].day != day)
    decreases |days|
  {
    if days == [] then None
    else if days[0].day == day then Some(days[0])
    else
      var r := FindDay(days[1..], day);
      if r.Some? then
        ghost var k :| 0 <= k < |days[1..]| && days[1..][k] == r.value
          && forall j :: 0 <= j < k ==> days[1..][j].day != day;
        assert days[k + 1] == r.value;
        assert forall j :: 0 <= j < k + 1 ==> days[j].day != day by {
          forall j | 0 <= j < k + 1 ensures days[j].day != day {
            if j > 0 { assert days[j] == days[1..][j - 1]; }
          }
        }
        r
      else
        assert forall k :: 0 <= k < |days| ==> days[k].day != day by {
          forall k | 0 <= k < |days| ensures days[k].day != day {
            if k > 0 { assert days[k] == days[1..][k - 1]; }
          }
        }
        r
  }

  // ---------------------------------------------------------------- the page state

  class Panel {
    // meal suggestions
    var mealCategory: Option<MealCategory>
    var mealGoal: Option<MealGoal>
    var mealPref: string
    var availableIngredients: string
    var meals: seq<MealSuggestion>
    var loadingMeals: bool
    var mealCache: map<string, seq<MealSuggestion>>
    // label reader
    var labelText: string
    var labelImage: Option<InlineImage>
    var labelResult: Option<LabelAnalysis>
    var loadingLabel: bool
    var imageRotation: int
    var manualIngredients: seq<ManualIngredient>
    var newIngredientName: string
    var newIngredientPercent: string
    // weekly reflections
    var reflections: seq<Entry>
    var healthInsight: string
    var loadingHealth: bool
    // weekly planner
    var plannerConfig: PlannerConfig
    var weeklyPlan: Option<WeeklyPlan>
    var loadingPlanner: bool
    var activePlannerDay: int

    ghost predicate Valid()
      reads this
    {
      && IsQuarterTurn(imageRotation)
      && DistinctKeys(reflections)
      && Keys(reflections) <= HealthCategorySet()
      && 1 <= activePlannerDay <= 7
    }

    constructor ()
      ensures Valid()
      ensures mealCategory.None? && mealGoal.None? && mealPref == "" && availableIngredients == ""
      ensures meals == [] && !loadingMeals && mealCache == map[]
      ensures labelText == "" && labelImage.None? && labelResult.None? && !loadingLabel
      ensures imageRotation == 0 && manualIngredients == []
      ensures newIngredientName == "" && newIngredientPercent == ""
      ensures reflections == [] && healthInsight == "" && !loadingHealth
      ensures plannerConfig == DefaultPlannerConfig && weeklyPlan.None? && !loadingPlanner
      ensures activePlannerDay == 1
    {
      mealCategory, mealGoal, mealPref, availableIngredients := None, None, "", "";
      meals, loadingMeals, mealCache := [], false, map[];
      labelText, labelImage, labelResult, loadingLabel := "", None, None, false;
      imageRotation, manualIngredients := 0, [];
      newIngredientName, newIngredientPercent := "", "";
      reflections, healthInsight, loadingHealth := [], "", false;
      plannerConfig, weeklyPlan, loadingPlanner := DefaultPlannerConfig, None, false;
      activePlannerDay := 1;
    }

    // ---------------------------------------------------------- meal suggestions

    function MealStateNow(): MealState
      reads this`meals, this`loadingMeals, this`mealCache
    {
      MealState(meals, loadingMeals, mealCache)
    }

    /** The suggest button is enabled. */
    predicate MealSuggestEnabled()
      reads this
    {
      !loadingMeals && !(mealCategory == Some(GoalBased) && mealGoal.None?)
    }

    method SelectCategory(c: MealCategory)
      modifies this`mealCategory
      ensures mealCategory == Some(c)
    {
      mealCategory := Some(c);
    }

    method SelectGoal(g: MealGoal)
      modifies this`mealGoal
      ensures mealGoal == Some(g)
    {
      mealGoal := Some(g);
    }

    /** "Back to Categories" clears both the category and the goal. */
    method BackToCategories()
      modifies this`mealCategory, this`mealGoal
      ensures mealCategory.None? && mealGoal.None?
    {
      mealCategory, mealGoal := None, None;
    }

    /**
     * `handleMealSuggest`: the meal state moves as `SuggestStep` says, and the returned request is
     * the one sent to the service (`None` when none is sent).
     */
    method HandleMealSuggest(network: MealRequest -> Option<string>, parse: string -> Json<MealsPayload>)
      returns (request: Option<MealRequest>)
      modifies this`meals, this`loadingMeals, this`mealCache
      ensures MealStep(MealStateNow(), request)
        == SuggestStep(mealCategory, mealGoal, mealPref, availableIngredients, old(MealStateNow()), network, parse)
    {
      if mealCategory.None? {
        return None;
      }
      var category := mealCategory.value;
      var prefString := PrefString(category, mealGoal, mealPref);
      var cacheKey := CacheKey(category, prefString, availableIngredients);
      if cacheKey in mealCache {
        meals := mealCache[cacheKey];
        return None;
      }
      loadingMeals := true;
      meals := [];
      request := Some(MealRequest(CategoryId(category), prefString, Trim(availableIngredients)));
      var response := network(request.value);
      if response.Some? {
        var fetchedMeals := FetchedMeals(response.value, parse);
        if fetchedMeals.Some? {
          meals := fetchedMeals.value;
          mealCache := mealCache[cacheKey := fetchedMeals.value];
        }
      }
      loadingMeals := false;
    }

    // ---------------------------------------------------------- label reader

    /** At least one of text, image or manual overrides is present. */
    predicate AnalyzeRequested()
      reads this
    {
      labelText != "" || labelImage.Some? || |manualIngredients| > 0
    }

    /**
     * `handleAnalyzeLabel`: without any input nothing happens; otherwise the analysis runs on
     * the text (an empty one is not sent), the image and the overrides, and its outcome, `None`
     * on any failure, becomes the shown result.
     */
    method HandleAnalyzeLabel(network: seq<Part> -> Option<string>, parse: string -> Option<LabelAnalysis>)
      returns (request: Option<seq<Part>>)
      modifies this`labelResult, this`loadingLabel
      ensures !AnalyzeRequested() ==>
        request.None? && labelResult == old(labelResult) && loadingLabel == old(loadingLabel)
      ensures AnalyzeRequested() ==>
        && request == Some(LabelParts(OptionalText(labelText), labelImage, Some(manualIngredients)))
        && !loadingLabel
        && (network(request.value).None? ==> labelResult.None?)
        && (network(request.value).Some? ==> labelResult == parse(network(request.value).value))
    {
      if labelText == "" && labelImage.None? && |manualIngredients| == 0 {
        return None;
      }
      loadingLabel := true;
      var parts, res := AnalyzeLabel(OptionalText(labelText), labelImage, Some(manualIngredients), network, parse);
      labelResult := res;
      request := Some(parts);
      loadingLabel := false;
    }

    /** `addManualIngredient`: appends the typed override and clears the inputs, only when both are filled in. */
    method AddManualIngredient()
      modifies this`manualIngredients, this`newIngredientName, this`newIngredientPercent
      ensures old(newIngredientName) != "" && old(newIngredientPercent) != "" ==>
        && manualIngredients == old(manualIngredients)
             + [ManualIngredient(old(newIngredientName), old(newIngredientPercent))]
        && newIngredientName == "" && newIngredientPercent == ""
      ensures old(newIngredientName) == "" || old(newIngredientPercent) == "" ==>
        && manualIngredients == old(manualIngredients)
        && newIngredientName == old(newIngredientName) && newIngredientPercent == old(newIngredientPercent)
    {
      if newIngredientName != "" && newIngredientPercent != "" {
        manualIngredients := manualIngredients + [ManualIngredient(newIngredientName, newIngredientPercent)];
        newIngredientName := "";
        newIngredientPercent := "";
      }
    }

    /** `removeManualIngredient`: exactly the entry at `index` goes; out of range, nothing does. */
    method RemoveManualIngredient(index: int)
      modifies this`manualIngredients
      ensures manualIngredients == WithoutIndex(old(manualIngredients), index)
      ensures 0 <= index < |old(manualIngredients)| ==>
        manualIngredients == old(manualIngredients)[..index] + old(manualIngredients)[index + 1..]
      ensures !(0 <= index < |old(manualIngredients)|) ==> manualIngredients == old(manualIngredients)
    {
      manualIngredients := WithoutIndex(manualIngredients, index);
    }

    /** The rotate button. */
    method Rotate()
      requires Valid()
      modifies this`imageRotation
      ensures Valid() && imageRotation == NextRotation(old(imageRotation))
    {
      RotationStaysQuarter(imageRotation);
      imageRotation := (imageRotation + 90) % 360;
    }

    /** A new upload resets the rotation and, once processed, becomes the label image. */
    method ImageUploaded(processed: InlineImage)
      requires Valid()
      modifies this`imageRotation, this`labelImage
      ensures Valid() && imageRotation == 0 && labelImage == Some(processed)
    {
      imageRotation := 0;
      labelImage := Some(processed);
    }

    // ---------------------------------------------------------- weekly reflections

    /** `setRating`: writes one category's answer, leaving every other answer as it was. */
    method SetRating(catId: string, value: string)
      requires Valid() && catId in HealthCategorySet()
      modifies this`reflections
      ensures Valid()
      ensures reflections == Put(old(reflections), catId, value)
      ensures Lookup(reflections, catId) == Some(value)
      ensures forall k :: k != catId ==> Lookup(reflections, k) == Lookup(old(reflections), k)
      ensures forall i :: 0 <= i < |old(reflections)| ==> reflections[i].key == old(reflections)[i].key
      ensures catId !in Keys(old(reflections)) ==>
        |reflections| == |old(reflections)| + 1 && reflections[|old(reflections)|] == Entry(catId, value)
    {
      PutDistinct(reflections, catId, value);
      PutKeepsOrder(reflections, catId, value);
      reflections := Put(reflections, catId, value);
    }

    /** The analysis button is enabled: not loading, and as many keys as categories. */
    predicate HealthAnalysisEnabled()
      reads this
    {
      !loadingHealth && |reflections| >= |HealthCategoryIds|
    }

    /**
     * `handleHealthReflection`: runs only once every category is rated, sends the reflection
     * string, and shows the insight on success; a failure keeps the previous insight.
     */
    method HandleHealthReflection(network: string -> Option<string>) returns (request: Option<string>)
      requires Valid()
      modifies this`healthInsight, this`loadingHealth
      ensures request.Some? <==> Keys(reflections) == HealthCategorySet()
      ensures old(HealthAnalysisEnabled()) ==> request.Some?
      ensures request.None? ==> healthInsight == old(healthInsight) && loadingHealth == old(loadingHealth)
      ensures request.Some? ==>
        && request.value == ReflectionString(reflections)
        && !loadingHealth
        && healthInsight == network(request.value).GetOr(old(healthInsight))
    {
      AllRatedGate(reflections);
      if |reflections| < |HealthCategoryIds| {
        return None;
      }
      loadingHealth := true;
      request := Some(ReflectionString(reflections));
      var res := network(request.value);
      if res.Some? {
        healthInsight := res.value;
      }
      loadingHealth := false;
    }

    // ---------------------------------------------------------- weekly planner

    /**
     * `handleGenerateWeeklyPlan`: whatever the response parses to, `null` included, replaces the
     * plan and opens day 1; a failed call or an unparsable text keeps the old plan and day.
     * The request, sent on every press, is the planner profile.
     */
    method HandleGenerateWeeklyPlan(network: PlannerConfig -> Option<string>, parse: string -> Json<WeeklyPlan>)
      returns (request: PlannerConfig)
      requires Valid()
      modifies this`weeklyPlan, this`activePlannerDay, this`loadingPlanner
      ensures request == plannerConfig
      ensures Valid() && !loadingPlanner
      ensures var plan := PlanOutcome(network(request), parse);
        && (plan.Some? ==> weeklyPlan == plan.value && activePlannerDay == 1)
        && (plan.None? ==> weeklyPlan == old(weeklyPlan) && activePlannerDay == old(activePlannerDay))
    {
      loadingPlanner := true;
      request := plannerConfig;
      var res := PlanOutcome(network(request), parse);
      if res.Some? {
        weeklyPlan := res.value;
        activePlannerDay := 1;
      }
      loadingPlanner := false;
    }

    /** A day button D1 to D7. */
    method SelectPlannerDay(day: int)
      requires Valid() && 1 <= day <= 7
      modifies this`activePlannerDay
      ensures Valid() && activePlannerDay == day
    {
      activePlannerDay := day;
    }

    /**
     * The meals listed for the active day, from the first day carrying its number: none exactly
     * when there is no plan or the plan has no such day.
     */
    function ActiveDayMeals(): (r: Option<seq<PlannedMeal>>)
      reads this
      ensures r.None? <==> (weeklyPlan.None?
        || forall k :: 0 <= k < |weeklyPlan.value.days| ==> weeklyPlan.value.days[k].day != activePlannerDay)
      ensures r.Some? ==> (weeklyPlan.Some?
        && exists k :: (0 <= k < |weeklyPlan.value.days| && weeklyPlan.value.days[k].day == activePlannerDay
           && weeklyPlan.value.days[k].meals == r.value
           && forall j :: 0 <= j < k ==> weeklyPlan.value.days[j].day != activePlannerDay))
    {
      if weeklyPlan.None? then None
      else
        var d := FindDay(weeklyPlan.value.days, activePlannerDay);
        if d.Some? then Some(d.value.meals) else None
    }
  }

  /**
   * The suggest button is disabled for a goal-based request without a goal, so through the button
   * such a request always names the chosen goal and never falls back to "General Balance".
   */
  lemma EnabledGoalRequestNamesGoal(p: Panel)
    requires p.MealSuggestEnabled() && p.mealCategory == Some(GoalBased)
    ensures !p.loadingMeals && p.mealGoal.Some?
    ensures PrefString(GoalBased, p.mealGoal, p.mealPref) == GoalId(p.mealGoal.value) + " goal, " + p.mealPref
  {
  }

  /** `labelText || undefined`. */
  function OptionalText(s: string): (r: Option<string>)
    ensures r.None? <==> s == ""
    ensures r.Some? ==> r.value == s
  {
    if s == "" then None else Some(s)
  }

  /**
   * The planner's outcome: `None` when the call fails or `JSON.parse` throws, both of which skip
   * the update; otherwise `Some` of what `setWeeklyPlan` receives, where a parsed `null` clears
   * the plan.
   */
  function PlanOutcome(response: Option<string>, parse: string -> Json<WeeklyPlan>): (r: Option<Option<WeeklyPlan>>)
    ensures r.None? <==> response.None? || parse(response.value).Malformed?
    ensures r == Some(None) <==> response.Some? && parse(response.value).Null?
    ensures r.Some? && r.value.Some? ==> response.Some? && parse(response.value) == Value(r.value.value)
  {
    if response.None? then None
    else
      match parse(response.value)
      case Malformed => None
      case Null => Some(None)
      case Value(plan) => Some(Some(plan))
  }

  /** The analysis gate lets a request through exactly when it carries something beyond the bare prompt. */
  lemma AnalyzeGateMeansContent(text: string, image: Option<InlineImage>, manual: seq<ManualIngredient>)
    ensures (text != "" || image.Some? || |manual| > 0) <==>
      (|LabelParts(OptionalText(text), image, Some(manual))| > 1 || ManualContext(Some(manual)) != "")
  {
    LabelPartsShape(OptionalText(text), image, Some(manual));
  }

}
