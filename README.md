# slg.clad wellness site — a Dafny model of its logic

slg.clad is a client-side wellness web site. Most of it is presentation over constant
content. This project models the small pieces of logic the site does carry, and proves what
they promise:

- **Navigation shell** (`Layout`, `Constants`).
  - The current path derived from the location.
  - The rule that highlights a navigation item: exact id, or id followed by `/`.
  - The back-button decision.
  - The mobile-menu flag, which also governs the page's scroll lock.
  - The navigation list and the icon lookup with its fallback.
- **AI tools page** (`AITools`, over `GeminiService`). It is a class whose fields are the page's
  state, with one method per handler:
  - Meal suggestions behind a memo cache keyed by category, preference and normalised ingredients.
  - The label reader, with manual ingredient overrides and image rotation.
  - The weekly self-reflection check-in, gated on every category being rated.
  - The weekly meal planner.
- **Service request assembly** (`GeminiService`).
  - The manual-override context string.
  - The ordered parts of a label-analysis request.
  - The reflection text.
  - The fallbacks that turn an empty or unreadable response into "no meals", and a failing
    analysis into "no result".
- **Ingredient glossary search** (`NutritionLabels`): a case-insensitive substring filter over the
  glossary, and the tier badge colours.
- **Calculators** (`Calculators`).
  - BMI, BMR (Harris–Benedict as revised by Roza and Shizgal) and waist-to-hip ratio, computed over
    real numbers.
  - Their "only with usable inputs" guards.
  - Their risk bands.
- **Wellbeing page** (`Wellbeing`).
  - The date-indexed daily journal prompt.
  - The three-phase breathing pacer.
  - The grounding-step labels.
- **Layered content card** (`LayeredContent`): the simple, medium and detailed levels, and which
  panel shows.

Shared helpers:

- `Text` holds the ASCII string operations the site uses: lower-casing, trimming, `includes`,
  `startsWith`, `split` and `join`.
- `Records` models a JavaScript object with string keys as an insertion-ordered list of entries.
- `Wrappers` holds `Option`.

The remote generative-AI service and `JSON.parse` are not modelled; they are parameters.

- `network` answers a request with response text, or fails. A failure is `None` and stands for a
  thrown error.
- `parse` reads a text as a value of the expected shape, as `null`, or fails (`Json`); for the
  label analysis, where `null` and failure coincide, it gives a value or fails.

Each handler that calls the service returns the request it sent. The three gated handlers
(meal suggestions, label analysis, weekly reflection) return `None` when they send nothing, so
their contracts can say when no call is made. The planner handler sends on every press and
returns the planner profile it sent.

One thing the proofs bring out about the meal cache: its key is not injective. The separator `-`
also occurs inside category ids and can occur inside the preference and the ingredients. So two
different requests can be served from one cache entry (`AITools.CacheKeyCollision`).

## Model

| member | source | states |
|---|---|---|
| Constants.GetIcon | slg.clad/constants.tsx:28-40 | every icon name with a case maps to that icon; any other name maps to the Home icon |
| Constants.NavigationIconsExplicit | slg.clad/constants.tsx:16-38 | every icon named in the navigation list has its own case, so none reaches the default |
| Constants.UnknownIconIsHome | slg.clad/constants.tsx:39 | a name matching no case gives the Home icon |
| Constants.NavigationIdsDistinct | slg.clad/constants.tsx:16-26 | the navigation ids are pairwise distinct |
| Constants.NavigationIdsPlain | slg.clad/constants.tsx:16-26 | every navigation id is non-empty and free of `/` |
| Constants.OnlyHomeLacksDescription | slg.clad/constants.tsx:17-25 | the first item is `home` and has no description; every other item has one |
| Layout.CurrentPath | slg.clad/components/Layout.tsx:14 | never empty; a pathname of at most one character gives `home`, a longer one loses its first character |
| Layout.IsNavItemActive | slg.clad/components/Layout.tsx:29-32 | definition of `isNavItemActive`; its laws are in HomeActiveExactly, SubPathActivates, LongerIdNotActive, ActiveIdsAgree and AtMostOneActive |
| Layout.IsHome | slg.clad/components/Layout.tsx:34 | definition of `isHome`; its laws are in HandleBack and BackButtonGoesBack |
| Layout.LinkTarget | slg.clad/components/Layout.tsx:77 | definition of a navigation link's `to`; its law is LinkTargetActivates |
| Layout.BackButtonShown | slg.clad/components/Layout.tsx:51 | definition of the back button's render condition; its law is BackButtonGoesBack |
| Layout.HomeActiveExactly | slg.clad/components/Layout.tsx:29-30 | the home item is active exactly when the current path is `home`, so `home-environment` does not activate it |
| Layout.SubPathActivates | slg.clad/components/Layout.tsx:31 | for any id other than `home`, every path under `id/` highlights that item |
| Layout.LongerIdNotActive | slg.clad/components/Layout.tsx:29-31 | a path continuing an id with any character but `/` does not highlight that item, `home` included |
| Layout.SectionPrefixExamples | slg.clad/components/Layout.tsx:31 | as instances of the two laws: `nutrition/labels` activates `nutrition`, `nutritionx` does not |
| Layout.LinkTargetActivates | slg.clad/components/Layout.tsx:77 | following an item's link (`/` for home, `/id` otherwise) makes that same item active |
| Layout.ActiveIdsAgree | slg.clad/components/Layout.tsx:29-32 | two slash-free ids both active on one path are equal |
| Layout.AtMostOneActive | slg.clad/components/Layout.tsx:29-32 | with the shipped navigation list, at most one item is active on any path |
| Layout.HandleBack | slg.clad/components/Layout.tsx:34-43 | the back action goes back in history exactly when not on home and history holds more than one entry; otherwise it scrolls to the top |
| Layout.BackButtonGoesBack | slg.clad/components/Layout.tsx:34-51 | the back button is shown exactly off the root path, and the action goes back exactly when the button is shown and history holds more than one entry |
| Layout.Shell.constructor | slg.clad/components/Layout.tsx:15 | the menu starts closed |
| Layout.Shell.BodyOverflow | slg.clad/components/Layout.tsx:21-27 | page scrolling is locked (`hidden`) exactly while the menu is open |
| Layout.Shell.ToggleMenu | slg.clad/components/Layout.tsx:92 | the menu button flips the flag and changes nothing else |
| Layout.Shell.CloseMenu | slg.clad/components/Layout.tsx:105-116 | the backdrop and close button leave the menu closed |
| Layout.Shell.Navigate | slg.clad/components/Layout.tsx:17-19 | any location change records the new location and closes the menu |
| Layout.ToggleTwice | slg.clad/components/Layout.tsx:92 | two presses restore both the menu flag and the scroll lock |
| NutritionLabels.Matches | slg.clad/pages/NutritionLabels.tsx:141-142 | definition of the filter callback; its laws are in Filter, EmptyTermKeepsAll, CaseInsensitive, UpperCaseTermSameResult and Monotone |
| NutritionLabels.Filter | slg.clad/pages/NutritionLabels.tsx:140-143 | the result is an order-preserving subsequence of the input, holding exactly the entries whose lower-cased name or role contains the lower-cased term, each as often as in the input |
| NutritionLabels.FilteredGlossary | slg.clad/pages/NutritionLabels.tsx:400 | the displayed count never exceeds the glossary size |
| NutritionLabels.EmptyTermKeepsAll | slg.clad/pages/NutritionLabels.tsx:140-143 | an empty search term returns the whole list in its order |
| NutritionLabels.CaseInsensitive | slg.clad/pages/NutritionLabels.tsx:141-142 | terms differing only in letter case give identical results |
| NutritionLabels.UpperCaseTermSameResult | slg.clad/pages/NutritionLabels.tsx:141-142 | an upper-cased term gives the same result as the term |
| NutritionLabels.Monotone | slg.clad/pages/NutritionLabels.tsx:141-142 | a longer term containing a shorter one filters the shorter one's result further: its result is a subsequence of the shorter term's |
| NutritionLabels.TierBadge | slg.clad/pages/NutritionLabels.tsx:419-422 | Primary is emerald, Secondary is amber, every other tier is slate |
| Calculators.Bmi | slg.clad/pages/Calculators.tsx:30-32 | the BMI times the squared height in metres gives back the weight; a positive weight gives a positive BMI |
| Calculators.Whr | slg.clad/pages/Calculators.tsx:49-51 | the ratio times the hip measure gives back the waist measure |
| Calculators.Bmr | slg.clad/pages/Calculators.tsx:40-43 | definition of the two BMR formulas; their law is BmrMonotone, and CalculateBMR stores them |
| Calculators.BmrMonotone | slg.clad/pages/Calculators.tsx:40-44 | for either sex, more weight, more height or fewer years never lowers the BMR |
| Calculators.BmiBandOf | slg.clad/pages/Calculators.tsx:134 | definition of the BMI label chain; its laws are BmiBandIntervals and BmiBandMonotone |
| Calculators.BmiBandIntervals | slg.clad/pages/Calculators.tsx:134 | Underweight below 18.5, Healthy Zone on [18.5, 25), Overweight on [25, 30), Obese from 30 |
| Calculators.BmiBandMonotone | slg.clad/pages/Calculators.tsx:134 | a larger BMI never falls in an earlier band |
| Calculators.WhrBandOf | slg.clad/pages/Calculators.tsx:212 | definition of the ratio label chain; its laws are WhrBandIntervals and WhrBandMonotone |
| Calculators.WhrBandIntervals | slg.clad/pages/Calculators.tsx:212 | Healthy Balance below 0.85, Moderate Risk on [0.85, 0.95), High Alert from 0.95 |
| Calculators.WhrBandMonotone | slg.clad/pages/Calculators.tsx:212 | a larger ratio never falls in an earlier band |
| Calculators.ResultShown | slg.clad/pages/Calculators.tsx:129 | definition of a result panel's render condition (`bmiResult &&`, and likewise at lines 170 and 207); its law is CalculatedResultsShown |
| Calculators.CalculatedResultsShown | slg.clad/pages/Calculators.tsx:129-207 | no result shows no panel; a BMI or waist-to-hip ratio computed from non-zero inputs is non-zero, so its panel is shown |
| Calculators.Trackers.constructor | slg.clad/pages/Calculators.tsx:15-27 | all inputs empty, no results, sex `m` |
| Calculators.Trackers.CalculateBMI | slg.clad/pages/Calculators.tsx:29-33 | with both inputs usable the result becomes the BMI; otherwise it is unchanged |
| Calculators.Trackers.CalculateBMR | slg.clad/pages/Calculators.tsx:35-46 | with all three inputs usable the result becomes the selected sex's formula; otherwise it is unchanged |
| Calculators.Trackers.CalculateWHR | slg.clad/pages/Calculators.tsx:48-52 | with both inputs usable the result becomes the ratio; otherwise it is unchanged |
| Calculators.Trackers.SetGender | slg.clad/pages/Calculators.tsx:162-163 | the sex buttons select the formula used next |
| Wellbeing.PromptIndex | slg.clad/pages/Wellbeing.tsx:36 | the index is valid for the twelve prompts and congruent to date plus month |
| Wellbeing.DailyPrompt | slg.clad/pages/Wellbeing.tsx:33-38 | the daily prompt is always one of the journal prompts |
| Wellbeing.NextDayNextPrompt | slg.clad/pages/Wellbeing.tsx:36 | within a month, the next day shows the next prompt, cyclically |
| Wellbeing.NextPhase | slg.clad/pages/Wellbeing.tsx:43-51 | definition of one timeout's phase change; its laws are NextPhaseFollowsCycle, PhaseAfterCycle and ThreeStepsReturn, and Pacer.PhaseTimeout applies it |
| Wellbeing.NextPhaseFollowsCycle | slg.clad/pages/Wellbeing.tsx:43-51 | each phase step moves one place along In, Hold, Out and wraps to In |
| Wellbeing.PhaseAfterCycle | slg.clad/pages/Wellbeing.tsx:43-53 | after n steps the phase is n places further round the cycle, so no phase is skipped |
| Wellbeing.ThreeStepsReturn | slg.clad/pages/Wellbeing.tsx:44-49 | three steps return to the starting phase |
| Wellbeing.PhaseAtTime | slg.clad/pages/Wellbeing.tsx:45-51 | PhaseAfterCycle at n = elapsed / 4000: assuming every timer fires exactly 4000 ms after the last phase change, the phase at a time is fixed by the whole steps elapsed from In; the step length is that assumption, not something Pacer.PhaseTimeout checks |
| Wellbeing.Pacer.constructor | slg.clad/pages/Wellbeing.tsx:28-29 | breathing starts off with the phase at In |
| Wellbeing.Pacer.Caption | slg.clad/pages/Wellbeing.tsx:326 | the circle shows the phase name while breathing and `Start` otherwise |
| Wellbeing.Pacer.ToggleBreathing | slg.clad/pages/Wellbeing.tsx:40-58 | the button flips breathing, and both starting and stopping put the phase at In |
| Wellbeing.Pacer.PhaseTimeout | slg.clad/pages/Wellbeing.tsx:45-50 | a timer firing while breathing advances the phase one step |
| Wellbeing.GroundingLabel | slg.clad/pages/Wellbeing.tsx:142 | definition of `step.split(' ').slice(2).join(' ')`; its laws are DropsTwoWords and GroundingLabelShown |
| Wellbeing.DropsTwoWords | slg.clad/pages/Wellbeing.tsx:142 | a label drops the first two space-separated words and keeps the rest |
| Wellbeing.GroundingLabelShown | slg.clad/pages/Wellbeing.tsx:139-142 | the five grounding labels read `you SEE` to `you TASTE` |
| GeminiService.ManualContext | slg.clad/geminiService.ts:36-40 | empty exactly when the overrides are absent or empty; otherwise it starts with the fixed overrides prefix |
| GeminiService.ManualContextSingle | slg.clad/geminiService.ts:38-39 | one override gives the prefix followed by `name: pct%` |
| GeminiService.ManualContextAppend | slg.clad/geminiService.ts:38-39 | entries appear in input order: one override more appends `, ` and its entry |
| GeminiService.LabelParts | slg.clad/geminiService.ts:54-67 | definition of the parts list `analyzeLabel` builds; its laws are LabelPartsShape and AnalyzeGateMeansContent, and AnalyzeLabel builds exactly it |
| GeminiService.LabelPartsShape | slg.clad/geminiService.ts:54-67 | the prompt comes first; a text part is second exactly when the text is non-empty; an image part is last exactly when an image is given; the length is 1 to 3 |
| GeminiService.AnalyzeLabel | slg.clad/geminiService.ts:36-105 | builds exactly those parts, and returns no result when the call or the parse fails, instead of an error |
| GeminiService.ReflectionString | slg.clad/geminiService.ts:110-112 | definition of the reflection text; its laws are ReflectionStringLines and ReflectionStringEmpty |
| GeminiService.ReflectionStringLines | slg.clad/geminiService.ts:110-112 | read back line by line, the text gives one `key: value` line per entry in order, with no trailing empty line |
| GeminiService.ReflectionStringEmpty | slg.clad/geminiService.ts:110-112 | no reflections give empty text |
| GeminiService.IngredientsLine | slg.clad/geminiService.ts:139 | the prompt's ingredients line is never empty: an empty list reads `None provided`, any other is sent unchanged |
| GeminiService.SuggestMeals | slg.clad/geminiService.ts:179-183 | a text that parses is returned as parsed, `null` included, and one that does not parse gives no meals; an empty response is read as the literal `{"meals":[]}` |
| GeminiService.EmptyResponseReadsLiteral | slg.clad/geminiService.ts:180 | an empty response is answered exactly as the literal `{"meals":[]}` is, whatever the parser |
| GeminiService.EmptyResponseNoMeals | slg.clad/geminiService.ts:180 | when that literal parses as written, an empty response gives the empty meal list |
| AITools.PrefString | slg.clad/pages/AITools.tsx:153-155 | goal-based requests lead with the goal, or `General Balance` without one; other categories send the preference unchanged |
| AITools.Panel.MealSuggestEnabled | slg.clad/pages/AITools.tsx:548 | definition of the suggest button's enabled state; its law is EnabledGoalRequestNamesGoal |
| AITools.EnabledGoalRequestNamesGoal | slg.clad/pages/AITools.tsx:546-548 | while the suggest button (`MealSuggestEnabled`) is enabled nothing is loading, and a goal-based request names the chosen goal, so `General Balance` is never sent through the button |
| AITools.CacheKey | slg.clad/pages/AITools.tsx:157 | definition of the memo-cache key; its laws are CacheKeyIgnoresCase, CacheKeyIgnoresPadding and CacheKeyCollision, and SuggestHit and SuggestMemo use it |
| AITools.CacheKeyIgnoresCase | slg.clad/pages/AITools.tsx:157 | ingredient lists differing only in letter case share one cache key |
| AITools.CacheKeyIgnoresPadding | slg.clad/pages/AITools.tsx:157 | ingredient lists differing only in surrounding white space share one cache key |
| AITools.CacheKeyCollision | slg.clad/pages/AITools.tsx:157 | two different preference and ingredient pairs produce the same key |
| Text.Trim | slg.clad/pages/AITools.tsx:157 | what `trim` leaves neither starts nor ends with white space |
| Text.TrimInfix | slg.clad/pages/AITools.tsx:166 | the trimmed text is a piece of the original with only white space around it |
| Text.TrimEmptyIffAllSpace | slg.clad/pages/AITools.tsx:166 | the trimmed text is empty exactly when the original is all white space |
| AITools.FetchedMeals | slg.clad/pages/AITools.tsx:166-167 | the response's meals, or none when the payload has none; no value at all when the service returned `null`, whose `meals` cannot be read |
| AITools.BlankIngredientsNoneProvided | slg.clad/geminiService.ts:139 | with the page's trim applied, a blank ingredient list reaches the prompt as `None provided`, and any other as its trimmed text |
| AITools.WithoutIndex | slg.clad/pages/AITools.tsx:242 | in range, exactly the element at the index is removed and the rest keep their order; out of range, nothing changes |
| AITools.RemoveUndoesAdd | slg.clad/pages/AITools.tsx:233-243 | removing the entry just appended restores the list |
| AITools.NextRotation | slg.clad/pages/AITools.tsx:619 | definition of the rotate button's update; its laws are RotationStaysQuarter and FourRotationsRestore, and Panel.Rotate applies it |
| AITools.RotationStaysQuarter | slg.clad/pages/AITools.tsx:619 | a rotation keeps the angle in {0, 90, 180, 270} and changes it |
| AITools.FourRotationsRestore | slg.clad/pages/AITools.tsx:619 | four presses restore any angle in [0, 360) |
| AITools.HealthCategorySet | slg.clad/pages/AITools.tsx:37-45 | there are seven distinct check-in categories |
| AITools.AllRatedGate | slg.clad/pages/AITools.tsx:193 | with distinct keys drawn from the categories, at least seven answers mean every category is rated, and conversely |
| AITools.FindDay | slg.clad/pages/AITools.tsx:407 | returns the first day with the number, or none exactly when no day has it |
| AITools.OptionalText | slg.clad/pages/AITools.tsx:181 | empty label text is not sent; other text is sent as is |
| AITools.PlanOutcome | slg.clad/pages/AITools.tsx:204-214 | a failed call or a text that does not parse skips the update; a text parsing to `null` clears the plan; otherwise the parsed plan is set |
| AITools.Panel.AnalyzeRequested | slg.clad/pages/AITools.tsx:177 | definition of the analysis gate; HandleAnalyzeLabel is stated by it, and AnalyzeGateMeansContent gives its meaning |
| AITools.AnalyzeGateMeansContent | slg.clad/pages/AITools.tsx:177 | the analysis gate passes exactly when the request carries text, an image or override context beyond the bare prompt |
| AITools.Panel.constructor | slg.clad/pages/AITools.tsx:54-96 | the page's initial state, including the default planner profile and day 1 |
| AITools.Panel.SelectCategory | slg.clad/pages/AITools.tsx:480 | a category button selects that category |
| AITools.Panel.SelectGoal | slg.clad/pages/AITools.tsx:508-514 | a goal button selects that goal |
| AITools.Panel.BackToCategories | slg.clad/pages/AITools.tsx:497 | going back clears both the category and the goal |
| AITools.SuggestStep | slg.clad/pages/AITools.tsx:150-174 | definition of `handleMealSuggest` as a transition on the meal state; its laws are SuggestWithoutCategory, SuggestHit, SuggestMiss, SuggestKeepsCache and SuggestMemo, and Panel.HandleMealSuggest follows it |
| AITools.SuggestWithoutCategory | slg.clad/pages/AITools.tsx:151 | without a category nothing changes and no request is sent |
| AITools.SuggestHit | slg.clad/pages/AITools.tsx:157-161 | when the key is cached, the cached meals show, no request is sent, and the cache and loading flag are unchanged |
| AITools.SuggestMiss | slg.clad/pages/AITools.tsx:163-173 | when the key is not cached, the request carries the category id, the preference and the trimmed ingredients; success shows the fetched meals and caches them under exactly this key; a failed call, or a `null` answer whose `meals` cannot be read, leaves the list empty and the cache as it was; loading ends false |
| AITools.SuggestKeepsCache | slg.clad/pages/AITools.tsx:150-174 | no suggestion ever drops or changes a cached entry |
| AITools.SuggestMemo | slg.clad/pages/AITools.tsx:157-169 | after a successful miss, the same selections hit the cache, send no request and leave the state as it was |
| AITools.Panel.HandleMealSuggest | slg.clad/pages/AITools.tsx:150-174 | the meal list, loading flag and cache move as `SuggestStep` says, and the returned request is the one sent to the service |
| AITools.Panel.HandleAnalyzeLabel | slg.clad/pages/AITools.tsx:176-190 | without text, image or overrides nothing happens; otherwise the assembled parts are sent and the result is the parsed analysis, or none on any failure; loading ends false |
| AITools.Panel.AddManualIngredient | slg.clad/pages/AITools.tsx:233-239 | with both inputs filled, appends the override and clears both inputs; otherwise nothing changes |
| AITools.Panel.RemoveManualIngredient | slg.clad/pages/AITools.tsx:241-243 | removes exactly the entry at the index, keeping the others in order; an out-of-range index changes nothing |
| AITools.Panel.Rotate | slg.clad/pages/AITools.tsx:619 | the angle moves on by 90 degrees modulo 360 and stays a quarter turn |
| AITools.Panel.ImageUploaded | slg.clad/pages/AITools.tsx:221-227 | a new upload resets the rotation to 0 and becomes the label image |
| AITools.Panel.SetRating | slg.clad/pages/AITools.tsx:257-259 | writes this category's answer and leaves every other answer as it was; existing keys keep their positions and a new one goes last; keys stay distinct |
| AITools.Panel.HealthAnalysisEnabled | slg.clad/pages/AITools.tsx:760 | definition of the analysis button's enabled state; HandleHealthReflection promises a request whenever it held, and AllRatedGate reads its key count as every category rated |
| AITools.Panel.HandleHealthReflection | slg.clad/pages/AITools.tsx:192-202 | a request is sent exactly when every category is rated, and always when the button (`HealthAnalysisEnabled`, line 760) is enabled; it carries the reflection text; success shows the insight, failure keeps the old one |
| AITools.Panel.HandleGenerateWeeklyPlan | slg.clad/pages/AITools.tsx:204-214 | sends the planner profile on every press and returns it; whatever the response parses to, `null` included, replaces the plan and opens day 1; a failed call or an unparsable text keeps the old plan and day; loading ends false |
| AITools.Panel.SelectPlannerDay | slg.clad/pages/AITools.tsx:393 | a day button makes that day (1 to 7) active |
| AITools.Panel.ActiveDayMeals | slg.clad/pages/AITools.tsx:407 | the listed meals are those of the first plan day carrying the active day's number, and there are none exactly when there is no plan or no such day |
| LayeredContent.Offered | slg.clad/components/LayeredContent.tsx:20-40 | definition of which level buttons are rendered; its law is ExactlyOneVisible, and Card.Select accepts only such levels |
| LayeredContent.PanelVisible | slg.clad/components/LayeredContent.tsx:46-58 | definition of which panel has the `block` class; its laws are ExactlyOneVisible and Card.IsVisible |
| LayeredContent.ExactlyOneVisible | slg.clad/components/LayeredContent.tsx:46-58 | when the level is one whose button exists, exactly its panel is visible |
| LayeredContent.Card.constructor | slg.clad/components/LayeredContent.tsx:13 | the card starts at the simple level |
| LayeredContent.Card.Select | slg.clad/components/LayeredContent.tsx:20-41 | a level can be chosen only through its button: simple always, medium or detailed only when that content is given |
| LayeredContent.Card.IsVisible | slg.clad/components/LayeredContent.tsx:46-58 | a panel is visible exactly when it matches the current level |
| LayeredContent.SelectTwice | slg.clad/components/LayeredContent.tsx:20-25 | choosing the same level twice is the same as choosing it once |

## Left out

- The generative-AI calls (`generateContent`) and `JSON.parse` are foreign services, so they are
  parameters: `network` and `parse`.
- The prompt wording is not modelled. A request records only what varies in it: the manual
  context, the text part, the image, the reflection text, and the meal selections.
- The model name and response schemas are not modelled either.
- `generateSmartGroceryList` and the grocery handler are left out as outside the modelled core.
  The handler serialises the per-day `planner` record that the day inputs fill in, sends it, and
  shows the returned markdown.
- Image preprocessing (the canvas, `Image`, `FileReader`, the trigonometry, `toDataURL`) is
  floating-point browser work. An upload is modelled only by its effects on rotation and the
  label image. The re-processing effect that follows a rotation or the enhance toggle is not
  modelled either.
- Calculators.Trackers.CalculateBMI: does not model `toFixed(1)` rounding. This is decimal
  float formatting, so the result is the exact real BMI.
- Calculators.Trackers.CalculateWHR: does not model `toFixed(2)` rounding, for the same reason.
- Calculators.Trackers.CalculateBMR: does not model `Math.round`, for the same reason.
- `JSON.parse` is a parameter with three outcomes: it throws, it yields `null`, or it yields a
  value. For the label analysis, `null` and a failure show the same thing, so that parser has
  two outcomes only.
- A parsed text that is neither `null` nor an object of the schema's shape is not modelled. The
  response schemas require an object, so a parsed value is taken to be a payload or plan record.
- Calculators.CalculatedResultsShown: in the source, a BMI or ratio that rounds to 0 hides its
  panel. Rounding is left out, so in the model every non-zero result shows.
- `parseFloat` is not modelled. Inputs are already-parsed `Option<real>` values, with `None`
  standing for NaN; "usable" means present and non-zero.
- Asynchronous interleaving of handlers is not modelled. Each handler is atomic, given its service
  result, so the loading flags are never seen during an `await`.
- The breathing timers and `clearTimeout` are not modelled. Only the phase step is, as a method
  called when a timer fires.
- Clipboard writes, the `copied` and `promptCopied` timeouts, `scrollIntoView`, `window.scrollTo`
  and `navigate(-1)` are browser I/O. The back action is modelled as the decision it makes.
- The live `document.body.style` is not modelled. The overflow value is a function of the menu flag.
- The active-tab selection and every piece of JSX presentation are not modelled:
  `dangerouslySetInnerHTML`, the icons' rendering sizes, the glossary detail view, and text inputs
  other than those the handlers read.
- Routing is not modelled: App.tsx is not part of this model; types.ts holds only type declarations.
- The static content pages are not modelled. They are constant markup with no logic.
- `toLowerCase` and `trim` are modelled on ASCII only (letters A–Z; space, tab, line feed,
  carriage return, vertical tab, form feed).
- The glossary's descriptive fields are not modelled, because the search does not read them.
- `Object.entries` places integer-like keys first. The rating keys are fixed words, so
  insertion order is the order modelled.
- Wellbeing.PromptIndex: takes the day of the month and the month as the numbers a date yields.
  Reading the clock is left out.
