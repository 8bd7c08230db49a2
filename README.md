# Culinex and iCooking recipe screens, modelled in Dafny

This project models the core of a SwiftUI recipe app in two generations. Culinex is the newer
one and iCooking the older one. The model covers:

- the recipe data model: step durations, quantities written as fractions, a recipe's total
  duration, its shopping list and its skills;
- the cooking mode: the step shown, the countdown timers and the step navigation;
- the editing screens: the recipe editor with its new-step side bar, the duration wheels, the
  quantity keypad, the tools sheet, the ingredient and skill pickers, the ingredient usages of
  a step, and the steps list with its inspector;
- the favourites: the "New Favorite" screens with their recipe pickers, and the favourites
  view model.

Pure computations are functions with lemmas. A view whose `@State` variables change under
taps is a class whose fields are those variables. Each tap handler is a method, and its
`ensures` ties the new state to a transition function of the old state. The lemmas about
those transition functions state what the screen promises. A button that the view disables
is modelled by a handler that leaves the state unchanged.

Swift `Double` is `real`, with exact arithmetic. `Int(x)` truncates toward zero, and so do
Swift's integer `/` and `%` (module `SwiftNum`). Library formatting and parsing are passed in
as function parameters: `%.2f`, `%g`, integer interpolation, `Double(String)`,
`localizedCaseInsensitiveContains` and iCooking's `localizedStandardContains`. Persistent identities and `UUID`s are natural numbers.

## Model

| member | source | states |
|---|---|---|
| StepTimes.Equals | Culinex/Model/StepTime.swift:11-13 | the custom `==` holds exactly when the two durations are structurally equal, so 1 hour differs from 60 minutes |
| StepTimes.ToString | Culinex/Model/StepTime.swift:25-34 | the unit's noun, singular when the value is exactly 1 and with a trailing "s" otherwise |
| StepTimes.SingularIff | Culinex/Model/StepTime.swift:25-34 | the singular noun is returned if and only if the value is 1 |
| StepTimes.SecondsPer | Culinex/Model/StepTime.swift:39-48 | every unit has a positive length in seconds |
| StepTimes.DurationInSeconds | Culinex/Model/StepTime.swift:39-48 | hours scale by 3600, minutes by 60, seconds by 1 |
| StepTimes.OneHourThreeWays | Culinex/Model/StepTime.swift:39-48 | 1 hr, 60 min and 3600 sec are all 3600 seconds |
| StepTimes.DurationScales | Culinex/Model/StepTime.swift:39-48 | the duration is the value times the unit's length: zero at zero, non-negative for a non-negative value |
| StepTimes.DurationMonotone | Culinex/Model/StepTime.swift:39-48 | for a fixed unit, a larger value is never a shorter duration |
| LegacyStepTimes.ToString | iCooking/Model/RecipeModel/StepTime.swift:20-29 | the result is singular exactly when the value is 1, and it is a form of the unit's own noun |
| LegacyStepTimes.SameAsCurrent | iCooking/Model/RecipeModel/StepTime.swift:15-29 | the iCooking `toString(value:)` agrees with Culinex's for every unit and value |
| LegacyStepTimes.NonOneIsPlural | iCooking/Model/RecipeModel/StepTime.swift:20-29 | 0, 2 and 0.5 all give the plural, which differs from the form for 1 |
| Tools.NewTool | Culinex/Model/Tool.swift:21-24 | a new tool keeps the given name and description, and the description defaults to none |
| Tools.Same | Culinex/Model/Tool.swift:17-19 | the custom `==` compares everything except the identifier |
| Tools.SameIsEquivalence | Culinex/Model/Tool.swift:17-19 | the custom `==` is reflexive, symmetric and transitive |
| Tools.FreshIdsCompareEqual | Culinex/Model/Tool.swift:13-24 | two tools made with the same name and description compare equal, though their identifiers differ |
| Skills.NewSkill | Culinex/Model/Skill.swift:17-27 | the initializer stores its arguments |
| Skills.DisplayName | Culinex/Model/Skill.swift:13-15 | the display name is the name |
| Skills.Icon | Culinex/Model/Skill.swift:30-38 | "flame" exactly for Cooking, "oven" exactly for Baking, otherwise "frying.pan" |
| Skills.OtherCategoriesFryingPan | Culinex/Model/Skill.swift:30-38 | any category other than Cooking and Baking falls to "frying.pan" |
| Skills.Defaults | Culinex/Model/Skill.swift:17-27 | a skill made with only a name is "General", has no AR file, and shows the frying pan |
| SwiftNum.Trunc | Culinex/View/StepsDetailComponents/StepFullScreenView.swift:583-591 | `Int(x)` rounds toward zero: it stays within one below a non-negative x and within one above a non-positive x |
| SwiftNum.Rem | Culinex/View/StepsDetailComponents/StepFullScreenView.swift:236-241 | Swift's `%` takes the sign of the dividend and is smaller than the divisor in magnitude |
| SwiftNum.Quot | Culinex/View/StepsDetailComponents/StepFullScreenView.swift:236-241 | Swift's `/` and `%` recombine to the dividend |
| SwiftNum.QuotRemNonNegative | Culinex/View/StepsDetailComponents/StepFullScreenView.swift:236-241 | for a non-negative dividend, Swift's `/` and `%` agree with Dafny's |
| SwiftNum.TruncOfWhole | Culinex/View/StepsDetailComponents/StepFullScreenView.swift:583-591 | truncating a whole number gives it back |
| SwiftNum.TruncBelowOne | Culinex/View/Timer/TimerComponentView.swift:59-60 | truncating a value in [0, 1) gives 0 |
| Clock.Split | Culinex/View/StepsDetailComponents/StepFullScreenView.swift:236-241 | the hours, minutes and seconds recombine to the total; for a non-negative total, minutes and seconds are below 60 and none is negative |
| Clock.SplitRecombines | Culinex/View/StepsDetailComponents/StepFullScreenView.swift:236-241 | `t / 3600`, `(t % 3600) / 60` and `t % 60` recombine to `t` for every integer |
| Clock.ModOfShift | Culinex/View/StepsDetailComponents/StepFullScreenView.swift:239 | adding whole minutes does not change the seconds shown |
| Clock.SplitOfSeconds | Culinex/View/StepsDetailComponents/StepFullScreenView.swift:236-241 | a clock reading with minutes and seconds below 60 splits back into itself |
| RecipeIngredients.Label | Culinex/Model/RecipeIngredient.swift:14-20 | the picker labels are "Fractions" and "Decimals" |
| RecipeIngredients.LabelsDiffer | Culinex/Model/RecipeIngredient.swift:14-20 | the two labels differ |
| RecipeIngredients.NewRecipeIngredient | Culinex/Model/RecipeIngredient.swift:33-38 | the initializer stores the quantity, unit, ingredient and step |
| RecipeIngredients.FindGlyph | Culinex/Model/RecipeIngredient.swift:72-76 | a glyph is found exactly when some table entry lies within 0.01 of the fractional part, and the result is that entry's glyph |
| RecipeIngredients.WindowsDisjoint | Culinex/Model/RecipeIngredient.swift:59-76 | at most one table entry is within 0.01 of any value, so the dictionary's iteration order does not matter |
| RecipeIngredients.Format | Culinex/Model/RecipeIngredient.swift:52-80 | decimals are `%.2f`; a whole quantity is its integer; otherwise the whole part and a glyph if one is near, else `%.2f` |
| RecipeIngredients.FormattedQuantity | Culinex/Model/RecipeIngredient.swift:46-50 | the default rendering is the fraction style |
| RecipeIngredients.WholeAndFractionalParts | Culinex/Model/RecipeIngredient.swift:69-70 | the fractional part lies in [0, 1), and for -0.5 the whole part is -1 with fraction ½ |
| RecipeIngredients.NoGlyphFallsBackToDecimal | Culinex/Model/RecipeIngredient.swift:77-78 | a fraction with no near glyph is written as the decimal style would write it |
| RecipeIngredients.HalfGlyphExample | Culinex/Model/RecipeIngredient.swift:59-76 | 2.5 is written "2 ½" |
| RecipeIngredients.ThreeQuartersGlyphExample | Culinex/Model/RecipeIngredient.swift:59-76 | 0.75 is written "¾", with no whole part |
| RecipeSteps.NewStep | Culinex/Model/RecipeStep.swift:27-35 | the initializer stores description, duration and order, with no tools, skills or ingredients |
| RecipeSteps.GetTimeInterval | Culinex/Model/RecipeStep.swift:38-40 | the step's time interval is its duration in seconds, non-negative for a non-negative value |
| RecipeSteps.FlatSkills | Culinex/Model/RecipeStep.swift:49 | the `flatMap` of the steps' skills; `FlatSkillsMembership` proves a skill is in it exactly when some step lists it |
| RecipeSteps.FlatSkillsMembership | Culinex/Model/RecipeStep.swift:49 | a skill is in the flattened list exactly when some step has it |
| RecipeSteps.AllSkills | Culinex/Model/RecipeStep.swift:47-57 | `allSkills`: deduplicate the flattened skills with a `Set`, then sort by name; `AllSkillsShape` and `AllSkillsMembership` prove it distinct, sorted and holding exactly the steps' skills |
| RecipeSteps.AllSkillsShape | Culinex/Model/RecipeStep.swift:46-56 | `allSkills` has no repeats, is sorted by name, and is no longer than the flattened list |
| RecipeSteps.AllSkillsMembership | Culinex/Model/RecipeStep.swift:46-56 | a skill is in `allSkills` exactly when some step of the recipe has it |
| Recipes.ReduceSeconds | Culinex/Model/Recipe.swift:38-42 | the `reduce(0)` over the steps that adds each duration in seconds; `ReduceIsSum` proves it is the seed plus the sum of the durations |
| Recipes.ReduceIsSum | Culinex/Model/Recipe.swift:38-42 | the `reduce` over the steps is the sum of their durations plus the seed |
| Recipes.SumSecondsAppend | Culinex/Model/Recipe.swift:38-42 | appending a step adds its duration to the total |
| Recipes.Recipe.constructor | Culinex/Model/Recipe.swift:27-36 | a new recipe has the given name and summary and no steps |
| Recipes.Recipe.Duration | Culinex/Model/Recipe.swift:38-42 | the duration is the sum of the steps' durations, zero without steps |
| Recipes.Recipe.AddNewStep | Culinex/Model/Recipe.swift:44-48 | the new step is appended with order equal to the old step count, and the duration grows by its length |
| Recipes.Recipe.ShoppingList | Culinex/Model/Recipe.swift:71-102 | the rows are exactly the consolidated groups, sorted by ingredient name, and the quantities total those of the usages with an ingredient |
| Recipes.GroupUsages | Culinex/Model/Recipe.swift:73-98 | the loop builds the consolidation map, with one row per key and the quantities preserved |
| Recipes.KeyedUpdate | Culinex/Model/Recipe.swift:85-88 | adding to an existing key updates its row in place |
| Recipes.KeyedAppend | Culinex/Model/Recipe.swift:89-97 | a new key gets a new row at the end |
| Recipes.ItemFormattedQuantity | Culinex/Model/Recipe.swift:62-66 | a shopping row is written with `%.2f` whatever the style |
| Recipes.ItemFormatIgnoresStyle | Culinex/Model/Recipe.swift:62-66 | both styles give the same text |
| Recipes.ConsolidateIds | Culinex/Model/Recipe.swift:82 | every row is stored under its own `id`, ingredient name plus unit |
| Recipes.FlatUsages | Culinex/Model/Recipe.swift:73 | the `flatMap` of the steps' ingredient usages, in step order |
| Recipes.AddUsage | Culinex/Model/Recipe.swift:80-97 | one pass of the consolidation loop: a usage without an ingredient is skipped, an existing key has its quantity increased, a new key gets a new row; `GroupUsages` is proved to apply it usage by usage |
| Recipes.Consolidate | Culinex/Model/Recipe.swift:77-98 | the dictionary the loop builds, as a fold of `AddUsage`; `ConsolidateIds`, `ConsolidateGroups` and `ConsolidateSize` prove its keys, ids and per-key sums |
| Recipes.ConsolidateGroups | Culinex/Model/Recipe.swift:79-98 | a key has a row exactly when some usage with an ingredient has that key, and the row's quantity is the sum over those usages |
| Recipes.UsageWithoutIngredientSkipped | Culinex/Model/Recipe.swift:80 | a usage without an ingredient changes nothing |
| Recipes.ConsolidateSize | Culinex/Model/Recipe.swift:79-98 | there are no more rows than usages with an ingredient |
| Recipes.SharedRowByJoinedString | Culinex/Model/Recipe.swift:82 | "Salt" in g and "Saltg" with an empty unit share one row, because the key joins the two strings |
| Recipes.SumQuantities | Culinex/Model/Recipe.swift:85-97 | the total quantity of a list of rows, the reference the four `SumQuantities` lemmas use to show the loop keeps every gram |
| Recipes.SumQuantitiesAppend | Culinex/Model/Recipe.swift:96 | a new row adds its quantity to the total |
| Recipes.SumQuantitiesUpdate | Culinex/Model/Recipe.swift:87-88 | updating a row changes the total by the difference |
| Recipes.SumQuantitiesPermutation | Culinex/Model/Recipe.swift:101 | sorting the rows does not change the total |
| Recipes.SumQuantitiesRemove | Culinex/Model/Recipe.swift:101 | the total is one row plus the total of the rest |
| Recipes.SortedRowsConsolidate | Culinex/Model/Recipe.swift:101 | a permutation of the dictionary's values holds each group exactly once |
| Recipes.ValuesOnce | Culinex/Model/Recipe.swift:101 | the dictionary's values hold each row at most once |
| Recipes.DistinctRowIds | Culinex/Model/Recipe.swift:101 | a permutation of the dictionary's values repeats no identifier |
| CookingSession.ComputeTotalSeconds | Culinex/View/StepsDetailComponents/StepFullScreenView.swift:583-591 | the truncated duration in seconds: non-negative and within one second below the exact length for a non-negative value |
| CookingSession.CurrentStep | Culinex/View/StepsDetailComponents/StepFullScreenView.swift:20-34 | the indexed step when the index is in range, otherwise the placeholder "No step data available." of 0 minutes; the screen's body never reads this property |
| CookingSession.IsLastStep | Culinex/View/StepsDetailComponents/StepFullScreenView.swift:35-37 | true exactly at the last index |
| CookingSession.PlaceholderTakesNoTime | Culinex/View/StepsDetailComponents/StepFullScreenView.swift:20-34 | the placeholder has a zero duration: zero seconds and a zero time interval |
| CookingSession.FormattedTime | Culinex/View/StepsDetailComponents/StepFullScreenView.swift:236-241 | the shown hours, minutes and seconds recombine to the remaining seconds, each field in range |
| CookingSession.TimerProgress | Culinex/View/StepsDetailComponents/StepFullScreenView.swift:243-248 | the progress lies in [0, 1], is 0 for a zero total, and is the elapsed fraction while the time is within the total |
| CookingSession.StartState | Culinex/View/StepsDetailComponents/StepFullScreenView.swift:230-233 | `init(time:)`: stopped, not completed, at the total; `TimerHandlersKeepValid` proves it valid |
| CookingSession.TickState | Culinex/View/StepsDetailComponents/StepFullScreenView.swift:341-353 | the tick handler's guard, decrement and completion at zero; `TimerHandlersKeepValid` and `RunsDownInTicks` prove it stays in range and runs down |
| CookingSession.ResetState | Culinex/View/StepsDetailComponents/StepFullScreenView.swift:303-309 | the reset button: stopped, not completed, at the total |
| CookingSession.PlayPauseState | Culinex/View/StepsDetailComponents/StepFullScreenView.swift:318-327 | the play button: restart from the total after completion, otherwise toggle; `ReplayAfterCompletion` exercises the restart |
| CookingSession.DisappearState | Culinex/View/StepsDetailComponents/StepFullScreenView.swift:354-356 | `onDisappear` only stops the timer |
| CookingSession.TimerHandlersKeepValid | Culinex/View/StepsDetailComponents/StepFullScreenView.swift:300-356 | start, tick, reset, play/pause and disappearing keep the remaining time within [0, total], with completion only at zero while stopped |
| CookingSession.RunsDownInTicks | Culinex/View/StepsDetailComponents/StepFullScreenView.swift:341-353 | a running timer with n seconds left counts down one per tick and completes, stopped at zero, after exactly n ticks |
| CookingSession.CompletedIsIdle | Culinex/View/StepsDetailComponents/StepFullScreenView.swift:341-342 | a stopped timer ignores ticks |
| CookingSession.TimerDashboard.constructor | Culinex/View/StepsDetailComponents/StepFullScreenView.swift:230-233 | the timer starts stopped, not completed, at the step's total seconds |
| CookingSession.TimerDashboard.Tick | Culinex/View/StepsDetailComponents/StepFullScreenView.swift:341-353 | one tick of the clock is `TickState` |
| CookingSession.TimerDashboard.Reset | Culinex/View/StepsDetailComponents/StepFullScreenView.swift:303-309 | reset stops the timer and restores the total |
| CookingSession.TimerDashboard.PlayPause | Culinex/View/StepsDetailComponents/StepFullScreenView.swift:318-327 | play after completion restarts from the total; otherwise play/pause toggles |
| CookingSession.TimerDashboard.Disappear | Culinex/View/StepsDetailComponents/StepFullScreenView.swift:354-356 | leaving the view stops the timer |
| CookingSession.ReplayAfterCompletion | Culinex/View/StepsDetailComponents/StepFullScreenView.swift:318-327 | a 1-second timer completes after one tick, and play then runs it again from 1 second |
| CookingSession.PreviousState | Culinex/View/StepsDetailComponents/StepFullScreenView.swift:519-535 | "Previous": a no-op at step 0, otherwise one back with the preview closed and clamped at 0; `NavigationStaysInRange` proves it stays on a step |
| CookingSession.NextState | Culinex/View/StepsDetailComponents/StepFullScreenView.swift:558-566 | "Next": dismisses on the last step, otherwise one on with the preview closed and clamped at the last step; `NavigationStaysInRange` and `NextWithoutSteps` cover both cases |
| CookingSession.TogglePreviewState | Culinex/View/StepsDetailComponents/StepFullScreenView.swift:539-555 | "Preview Next": flips the preview except on the last step |
| CookingSession.NavigationStaysInRange | Culinex/View/StepsDetailComponents/StepFullScreenView.swift:519-566 | with at least one step, Previous, Next and Preview keep the index in range; Previous and Next move by one and close the preview; Next on the last step dismisses |
| CookingSession.NextWithoutSteps | Culinex/View/StepsDetailComponents/StepFullScreenView.swift:558-566 | with no steps, the clamp of Next gives -1; the screen never gets there, because with no steps its first render traps on `steps[0]` (line 116) |
| CookingSession.StepNavigation.constructor | Culinex/View/StepsDetailComponents/StepFullScreenView.swift:16-17 | the screen starts at step 0 with the preview closed |
| CookingSession.StepNavigation.Previous | Culinex/View/StepsDetailComponents/StepFullScreenView.swift:519-535 | Previous is `PreviousState`, a no-op at step 0 where the button is disabled |
| CookingSession.StepNavigation.Next | Culinex/View/StepsDetailComponents/StepFullScreenView.swift:558-566 | Next is `NextState`, dismissing on the last step |
| CookingSession.StepNavigation.TapExit | Culinex/View/StepsDetailComponents/StepFullScreenView.swift:91-93 | the Exit button dismisses the screen and changes nothing else |
| CookingSession.StepNavigation.TogglePreview | Culinex/View/StepsDetailComponents/StepFullScreenView.swift:539-555 | the preview button flips the preview, and is absent on the last step |
| LegacyCookingSession.ComputeTotalSeconds | iCooking/View/StepsDetailComponents/StepFullScreenView.swift:182-190 | the same seconds as Culinex's `computeTotalSeconds` |
| LegacyCookingSession.FormattedTime | iCooking/View/StepsDetailComponents/StepFullScreenView.swift:103-109 | the shown fields recombine to the remaining seconds |
| LegacyCookingSession.PlayState | iCooking/View/StepsDetailComponents/StepFullScreenView.swift:133-135 | iCooking's play button only toggles running; `PlayAfterCompletionSticks` shows it does not restart a completed timer |
| LegacyCookingSession.TimeChangedState | iCooking/View/StepsDetailComponents/StepFullScreenView.swift:159-163 | `onChange(of: time)`: stopped, not completed, at the new total |
| LegacyCookingSession.LegacyHandlersKeepValid | iCooking/View/StepsDetailComponents/StepFullScreenView.swift:119-177 | tick, play, reset, a change of step and leaving the screen keep the remaining time within [0, total] |
| LegacyCookingSession.PlayAfterCompletionSticks | iCooking/View/StepsDetailComponents/StepFullScreenView.swift:133-134 | play on a completed timer marks it running at zero, where no tick moves it, unlike Culinex |
| LegacyCookingSession.TimerView.constructor | iCooking/View/StepsDetailComponents/StepFullScreenView.swift:111-114 | the timer starts stopped at the step's total seconds |
| LegacyCookingSession.TimerView.Tick | iCooking/View/StepsDetailComponents/StepFullScreenView.swift:164-174 | one tick of the clock is `TickState` |
| LegacyCookingSession.TimerView.Reset | iCooking/View/StepsDetailComponents/StepFullScreenView.swift:120-124 | reset stops the timer and restores the total |
| LegacyCookingSession.TimerView.Play | iCooking/View/StepsDetailComponents/StepFullScreenView.swift:133-135 | play only toggles running |
| LegacyCookingSession.TimerView.OnTimeChange | iCooking/View/StepsDetailComponents/StepFullScreenView.swift:159-163 | a new duration stops the timer at its own total |
| LegacyCookingSession.TimerView.Disappear | iCooking/View/StepsDetailComponents/StepFullScreenView.swift:175-177 | leaving the screen stops the timer and keeps the time shown, and the timer stays valid |
| LegacyCookingSession.PlayAfterCompletion | iCooking/View/StepsDetailComponents/StepFullScreenView.swift:133-174 | a 1-second timer that completed and is played stays at zero, running and completed |
| LegacyCookingSession.PreviousState | iCooking/View/StepsDetailComponents/StepFullScreenView.swift:199-205 | iCooking's "Previous": a no-op at step 0, otherwise exactly one back, without clamping |
| LegacyCookingSession.NextState | iCooking/View/StepsDetailComponents/StepFullScreenView.swift:209-214 | iCooking's "Next": dismisses on the last step, otherwise exactly one on, without clamping; `MatchesClampedInRange` and `UnclampedOutOfRange` compare it with Culinex's |
| LegacyCookingSession.MatchesClampedInRange | iCooking/View/StepsDetailComponents/StepFullScreenView.swift:199-214 | within range, the unclamped buttons move exactly like Culinex's clamped ones |
| LegacyCookingSession.UnclampedOutOfRange | iCooking/View/StepsDetailComponents/StepFullScreenView.swift:199-214 | with no steps Next moves to 1 where Culinex moves to -1, and Previous goes below zero from -1; neither screen gets there, because with no steps the first render traps on `steps[0]` (line 29) |
| LegacyCookingSession.StepNavigationButtons.constructor | iCooking/View/StepsDetailComponents/StepFullScreenView.swift:15 | the screen starts at step 0 |
| LegacyCookingSession.StepNavigationButtons.Previous | iCooking/View/StepsDetailComponents/StepFullScreenView.swift:199-205 | Previous decrements, and is disabled at step 0 |
| LegacyCookingSession.StepNavigationButtons.Next | iCooking/View/StepsDetailComponents/StepFullScreenView.swift:209-214 | Next increments, or dismisses on the last step |
| LegacyCookingSession.StepNavigationButtons.TapExit | iCooking/View/StepsDetailComponents/StepFullScreenView.swift:62 | the Exit toolbar button dismisses the screen and changes nothing else |
| TimerComponent.TickRemaining | Culinex/View/Timer/TimerComponentView.swift:43-49 | an active timer with time left loses one second; otherwise nothing changes |
| TimerComponent.TickKeepsWholeSeconds | Culinex/View/Timer/TimerComponentView.swift:43-49 | ticking a whole number of seconds stays whole and within [0, n] |
| TimerComponent.Progress | Culinex/View/Timer/TimerComponentView.swift:52-56 | the progress is zero without a total, remaining over total otherwise, and exceeds 1 only when more remains than the total |
| TimerComponent.ShownSeconds | Culinex/View/Timer/TimerComponentView.swift:60 | the shown seconds are the truncated non-negative remaining time |
| TimerComponent.TimeString | Culinex/View/Timer/TimerComponentView.swift:59-68 | the shown fields recombine to the shown seconds, minutes and seconds below 60 |
| TimerComponent.ShowsZerosBelowOneSecond | Culinex/View/Timer/TimerComponentView.swift:59-68 | any time below one second, negative included, shows 00:00:00 |
| TimerComponent.TimerComponentView.constructor | Culinex/View/Timer/TimerComponentView.swift:25-29 | the view stores the remaining time, total and activity |
| TimerComponent.TimerComponentView.Tick | Culinex/View/Timer/TimerComponentView.swift:43-49 | a tick sets the bound remaining time to `TickRemaining` |
| DurationPicker.Decompose | Culinex/View/Recipes/RecipeDetail/RecipeDetailSteps/EditorFormSetViews/SetTimerView.swift:78-85 | the wheels recombine to the truncated length in seconds, minutes and seconds below 60 |
| DurationPicker.Recompose | Culinex/View/Recipes/RecipeDetail/RecipeDetailSteps/EditorFormSetViews/SetTimerView.swift:137-143 | the saved duration is in seconds and as long as the wheels show |
| DurationPicker.OpenThenSaveKeepsLength | Culinex/View/Recipes/RecipeDetail/RecipeDetailSteps/EditorFormSetViews/SetTimerView.swift:78-143 | opening and saving a whole-second duration keeps its length, now in seconds |
| DurationPicker.SaveThenOpenKeepsWheels | Culinex/View/Recipes/RecipeDetail/RecipeDetailSteps/EditorFormSetViews/SetTimerView.swift:103-143 | a selection on the wheels survives saving and reopening |
| DurationPicker.Picker.constructor | Culinex/View/Recipes/RecipeDetail/RecipeDetailSteps/EditorFormSetViews/SetTimerView.swift:78-85 | the wheels start at the split of the bound duration |
| DurationPicker.Picker.Select | Culinex/View/Recipes/RecipeDetail/RecipeDetailSteps/EditorFormSetViews/SetTimerView.swift:103-130 | turning the wheels changes only the wheels |
| DurationPicker.Picker.SaveAndDismiss | Culinex/View/Recipes/RecipeDetail/RecipeDetailSteps/EditorFormSetViews/SetTimerView.swift:137-147 | "Done" writes the recomposed duration and dismisses |
| DurationPicker.OpenAndSave | Culinex/View/Recipes/RecipeDetail/RecipeDetailSteps/EditorFormSetViews/SetTimerView.swift:78-147 | opening the picker and tapping "Done" keeps the length |
| Calculator.KeypadKeys | Culinex/View/Utils/CalculatorNumberPickerView.swift:22-27 | every keypad key is a digit, "." or "⌫", and every digit is on the keypad |
| Calculator.KeyTap | Culinex/View/Utils/CalculatorNumberPickerView.swift:104-118 | "⌫" drops the last character of a non-empty input, "." is added only once, and anything else is appended |
| Calculator.KeyTapKeepsOneDot | Culinex/View/Utils/CalculatorNumberPickerView.swift:110-114 | the input never holds more than one ".", and holds one after tapping "." |
| Calculator.DigitAppends | Culinex/View/Utils/CalculatorNumberPickerView.swift:115-116 | a digit is appended at the end and the rest is kept |
| Calculator.FractionTap | Culinex/View/Utils/CalculatorNumberPickerView.swift:120-131 | a fraction key replaces the input with the whole part of its value plus the fraction; another key changes nothing |
| Calculator.FractionTapValue | Culinex/View/Utils/CalculatorNumberPickerView.swift:124-128 | the new value is the floor of the current value plus the key's fraction |
| Calculator.Appear | Culinex/View/Utils/CalculatorNumberPickerView.swift:93-99 | a positive quantity is shown with `%g`; otherwise the input is kept |
| Calculator.Parsed | Culinex/View/Utils/CalculatorNumberPickerView.swift:78 | "Done" stores the parsed input, or 0 when it does not parse |
| Calculator.CalculatorNumberPicker.constructor | Culinex/View/Utils/CalculatorNumberPickerView.swift:13-16 | the sheet opens, as it appears, showing the positive quantity or nothing |
| Calculator.CalculatorNumberPicker.OnAppear | Culinex/View/Utils/CalculatorNumberPickerView.swift:93-99 | `onAppear` sets the input by `Appear` |
| Calculator.CalculatorNumberPicker.HandleKeyTap | Culinex/View/Utils/CalculatorNumberPickerView.swift:104-118 | a keypad tap is `KeyTap` |
| Calculator.CalculatorNumberPicker.HandleFractionTap | Culinex/View/Utils/CalculatorNumberPickerView.swift:120-131 | a fraction tap is `FractionTap` |
| Calculator.CalculatorNumberPicker.Done | Culinex/View/Utils/CalculatorNumberPickerView.swift:76-81 | "Done" sets the quantity to the parsed input and dismisses |
| ToolEditor.TrimStart | Culinex/View/RecipeDetailComponents/DescriptionView.swift:272-279 | the leading whitespace is dropped and nothing else |
| ToolEditor.TrimEnd | Culinex/View/RecipeDetailComponents/DescriptionView.swift:272-279 | the trailing whitespace is dropped and nothing else |
| ToolEditor.Leading | Culinex/View/RecipeDetailComponents/DescriptionView.swift:272-279 | the length of the leading white run: white space before it, and a non-white character at it unless it is the whole text |
| ToolEditor.Trim | Culinex/View/RecipeDetailComponents/DescriptionView.swift:272-279 | the trimmed text is no longer than the input and starts and ends with non-whitespace |
| ToolEditor.TrimIsSlice | Culinex/View/RecipeDetailComponents/DescriptionView.swift:272-279 | the trimmed text is the slice of the input that starts where the leading white run ends, with only white space after it |
| ToolEditor.InnerSlice | Culinex/View/RecipeDetailComponents/DescriptionView.swift:272-279 | what is left after trimming the end and then the start sits in the input right after its leading white run, with only white space after it |
| ToolEditor.TrimEmptyIff | Culinex/View/RecipeDetailComponents/DescriptionView.swift:272-279 | the trimmed text is empty exactly when the input is all whitespace |
| ToolEditor.TrimIdempotent | Culinex/View/RecipeDetailComponents/DescriptionView.swift:272-279 | trimming twice trims once |
| ToolEditor.AddToolIfValid | Culinex/View/RecipeDetailComponents/DescriptionView.swift:272-279 | a non-empty trimmed text not yet a tool is appended and the field cleared; otherwise nothing changes; the tools stay distinct |
| ToolEditor.RemoveTool | Culinex/View/RecipeDetailComponents/DescriptionView.swift:244 | tapping a tag removes every copy of that tool and keeps the others |
| ToolEditor.DoneDisabled | Culinex/View/RecipeDetailComponents/DescriptionView.swift:151 | "Done" is disabled exactly when both the description and the tool list are empty |
| ToolEditor.AddDisabled | Culinex/View/RecipeDetailComponents/DescriptionView.swift:228 | "+" is disabled exactly when the field is empty |
| ToolEditor.AddKeepsToolsDistinct | Culinex/View/RecipeDetailComponents/DescriptionView.swift:272-279 | adding keeps the tools distinct, and either clears the field or changes nothing |
| ToolEditor.SpacesEnableButAreRejected | Culinex/View/RecipeDetailComponents/DescriptionView.swift:228-279 | a lone space enables "+", but the tap adds nothing |
| ToolEditor.DescriptionSheet.constructor | Culinex/View/RecipeDetailComponents/DescriptionView.swift:13-15 | the sheet starts with an empty field |
| ToolEditor.DescriptionSheet.AddTool | Culinex/View/RecipeDetailComponents/DescriptionView.swift:272-279 | "+" is `AddToolIfValid` |
| ToolEditor.DescriptionSheet.TapRemove | Culinex/View/RecipeDetailComponents/DescriptionView.swift:244 | a tag tap is `RemoveTool` |
| LegacyToolEditor.AddTool | iCooking/View/RecipeDetailComponents/DescriptionView.swift:78-81 | a non-empty text not yet a tool is appended untrimmed and the field cleared; the tools stay distinct |
| LegacyToolEditor.AgreesOnTrimmedText | iCooking/View/RecipeDetailComponents/DescriptionView.swift:78-81 | on text without surrounding whitespace, iCooking adds exactly what Culinex adds |
| LegacyToolEditor.SpaceIsAToolHere | iCooking/View/RecipeDetailComponents/DescriptionView.swift:78-87 | a lone space becomes a tool in iCooking but not in Culinex |
| LegacyToolEditor.DescriptionSheet.constructor | iCooking/View/RecipeDetailComponents/DescriptionView.swift:13-15 | the sheet starts with an empty field |
| LegacyToolEditor.DescriptionSheet.TapAdd | iCooking/View/RecipeDetailComponents/DescriptionView.swift:78-81 | "+" is `AddTool` |
| LegacyToolEditor.DescriptionSheet.TapRemove | iCooking/View/RecipeDetailComponents/DescriptionView.swift:97 | a tag tap removes every copy of that tool |
| IngredientSelection.Filtered | Culinex/View/RecipeDetailComponents/ExisitingIngredientView.swift:18-24 | an empty search shows every ingredient; otherwise exactly the matching ones, each as often as stored, in the stored order by `FilteredInOrder` |
| IngredientSelection.FilteredInOrder | Culinex/View/RecipeDetailComponents/ExisitingIngredientView.swift:18-24 | the search keeps the stored order: it splits over concatenation, and one ingredient is shown exactly when the search is empty or its name matches |
| IngredientSelection.Tap | Culinex/View/RecipeDetailComponents/ExisitingIngredientView.swift:71-77 | a checked ingredient is removed by identifier, an unchecked one appended; identifiers stay distinct |
| IngredientSelection.TapFlipsOnlyThatRow | Culinex/View/RecipeDetailComponents/ExisitingIngredientView.swift:53-77 | a tap flips the checkmark of that row and of no other |
| IngredientSelection.TapTwiceRestores | Culinex/View/RecipeDetailComponents/ExisitingIngredientView.swift:71-77 | two taps on an unchecked row restore the selection |
| IngredientSelection.IngredientPicker.constructor | Culinex/View/RecipeDetailComponents/ExisitingIngredientView.swift:14-15 | the sheet starts with the bound selection and an empty search |
| IngredientSelection.IngredientPicker.TapRow | Culinex/View/RecipeDetailComponents/ExisitingIngredientView.swift:71-77 | a row tap is `Tap` |
| IngredientSelection.IngredientPicker.Search | Culinex/View/RecipeDetailComponents/ExisitingIngredientView.swift:15 | typing changes only the search text |
| SkillSelection.Filtered | iCooking/View/RecipeDetailComponents/SkillSelectionView.swift:18-24 | an empty search shows every skill; otherwise exactly the matching ones, each as often as stored, in the stored order by `FilteredInOrder` |
| SkillSelection.FilteredInOrder | iCooking/View/RecipeDetailComponents/SkillSelectionView.swift:18-24 | the search keeps the stored order: it splits over concatenation, and one skill is shown exactly when the search is empty or its name matches |
| SkillSelection.Tap | iCooking/View/RecipeDetailComponents/SkillSelectionView.swift:62-68 | a checked skill is removed by identifier, an unchecked one appended; identifiers stay distinct |
| SkillSelection.TapFlipsOnlyThatRow | iCooking/View/RecipeDetailComponents/SkillSelectionView.swift:44-68 | a tap flips the checkmark of that row and of no other |
| SkillSelection.TapTwiceRestores | iCooking/View/RecipeDetailComponents/SkillSelectionView.swift:62-68 | two taps on an unchecked row restore the selection |
| SkillSelection.SkillPicker.constructor | iCooking/View/RecipeDetailComponents/SkillSelectionView.swift:14-15 | the sheet starts with the bound selection and an empty search |
| SkillSelection.SkillPicker.TapRow | iCooking/View/RecipeDetailComponents/SkillSelectionView.swift:62-68 | a row tap is `Tap` |
| SkillSelection.SkillPicker.Search | iCooking/View/RecipeDetailComponents/SkillSelectionView.swift:15 | typing changes only the search text |
| StepIngredients.Uses | Culinex/View/Recipes/RecipeDetail/RecipeDetailSteps/EditorFormSetViews/SetIngredientView.swift:22 | the step uses an ingredient when some usage refers to it by identifier; `AvailableIngredients`, `PlusDisabled` and `PickUsesUp` are stated with it |
| StepIngredients.AvailableIngredients | Culinex/View/Recipes/RecipeDetail/RecipeDetailSteps/EditorFormSetViews/SetIngredientView.swift:20-24 | exactly the ingredients the step does not use yet, each as often as stored, in the stored order by `AvailableInOrder` |
| StepIngredients.AvailableInOrder | Culinex/View/Recipes/RecipeDetail/RecipeDetailSteps/EditorFormSetViews/SetIngredientView.swift:20-24 | the offer keeps the stored order: it splits over concatenation, and one ingredient is offered exactly when the step does not use it |
| StepIngredients.PlusDisabled | Culinex/View/Recipes/RecipeDetail/RecipeDetailSteps/EditorFormSetViews/SetIngredientView.swift:31-32 | "+" is disabled exactly when every ingredient is used already |
| StepIngredients.NewUsage | Culinex/View/Recipes/RecipeDetail/RecipeDetailSteps/EditorFormSetViews/SetIngredientView.swift:56-70 | a picked ingredient is used at 1 g in this step |
| StepIngredients.Pick | Culinex/View/Recipes/RecipeDetail/RecipeDetailSteps/EditorFormSetViews/SetIngredientView.swift:56-70 | picking appends the new usage and changes nothing else of the step |
| StepIngredients.PickUsesUp | Culinex/View/Recipes/RecipeDetail/RecipeDetailSteps/EditorFormSetViews/SetIngredientView.swift:20-70 | a picked ingredient is no longer offered, and other ingredients stay offered as before |
| StepIngredients.Delete | Culinex/View/Recipes/RecipeDetail/RecipeDetailSteps/EditorFormSetViews/SetIngredientView.swift:41-46 | swiping removes exactly the chosen rows |
| StepIngredients.DeleteKeepsOthers | Culinex/View/Recipes/RecipeDetail/RecipeDetailSteps/EditorFormSetViews/SetIngredientView.swift:41-46 | every row not chosen survives, shifted down by the chosen rows before it |
| StepIngredients.UsageList.constructor | Culinex/View/Recipes/RecipeDetail/RecipeDetailSteps/EditorFormSetViews/SetIngredientView.swift:16-17 | the picker is closed and nothing is being edited |
| StepIngredients.UsageList.TapPlus | Culinex/View/Recipes/RecipeDetail/RecipeDetailSteps/EditorFormSetViews/SetIngredientView.swift:31-32 | "+" opens the picker unless it is disabled |
| StepIngredients.UsageList.PickIngredient | Culinex/View/Recipes/RecipeDetail/RecipeDetailSteps/EditorFormSetViews/SetIngredientView.swift:56-70 | a pick adds the usage, closes the picker and opens the usage for editing |
| StepIngredients.UsageList.CancelPicker | Culinex/View/Recipes/RecipeDetail/RecipeDetailSteps/EditorFormSetViews/SetIngredientView.swift:81 | "Cancel" closes the picker |
| StepIngredients.UsageList.TapEdit | Culinex/View/Recipes/RecipeDetail/RecipeDetailSteps/EditorFormSetViews/SetIngredientView.swift:38 | a row tap opens that usage for editing |
| StepIngredients.UsageList.DeleteRows | Culinex/View/Recipes/RecipeDetail/RecipeDetailSteps/EditorFormSetViews/SetIngredientView.swift:41-46 | a swipe deletes the rows by `Delete` |
| Lists.NoDupMultiplicity | Culinex/Model/RecipeStep.swift:52 | a list without repeats holds each element at most once |
| Lists.RepeatMultiplicity | Culinex/Model/RecipeStep.swift:52 | a repeated element occurs at least twice |
| Lists.NoDupPermutation | Culinex/Model/RecipeStep.swift:55 | a permutation of a list without repeats has none |
| Lists.NoDupAppend | Culinex/View/RecipeDetailComponents/DescriptionView.swift:272-279 | appending a tool the list does not hold keeps the tools distinct |
| Lists.Distinct | Culinex/Model/RecipeStep.swift:52-55 | de-duplicating through a `Set` keeps exactly the elements, without repeats |
| Lists.Without | Culinex/View/RecipeDetailComponents/DescriptionView.swift:244 | `removeAll(where: { $0 == x })` drops every copy of x and keeps the rest |
| Lists.WithoutConcat | Culinex/View/RecipeDetailComponents/DescriptionView.swift:244 | removing from a concatenation removes from both parts |
| Lists.WithoutKeepsNoDup | Culinex/View/RecipeDetailComponents/DescriptionView.swift:244 | removal keeps a list without repeats |
| Lists.PickedUnpickedShare | iCooking/ViewModel/FavoritesViewModel.swift:12-14 | over any prefix of the list, the removed rows and the kept rows together are the old rows, as a multiset |
| Lists.PickedCount | iCooking/ViewModel/FavoritesViewModel.swift:12-14 | as many rows are removed as there are offsets |
| Lists.UnpickedConcat | iCooking/ViewModel/FavoritesViewModel.swift:12-18 | the kept rows of adjacent ranges concatenate |
| Lists.UnpickedPositions | iCooking/ViewModel/FavoritesViewModel.swift:12-14 | every kept row is a row of the old list not chosen |
| Lists.RemoveOffsets | iCooking/ViewModel/FavoritesViewModel.swift:12-14 | `remove(atOffsets:)` shortens the list by the number of offsets and only removes |
| Lists.RemoveOffsetsKeeps | iCooking/ViewModel/FavoritesViewModel.swift:12-14 | every row not chosen survives, shifted down by the chosen rows before it |
| Lists.RemoveOffsetsDrops | iCooking/ViewModel/FavoritesViewModel.swift:12-14 | exactly the chosen rows are removed |
| Lists.Move | iCooking/ViewModel/FavoritesViewModel.swift:16-18 | `move(fromOffsets:toOffset:)` keeps the length and the elements |
| Lists.MoveIsRemoveThenInsert | iCooking/ViewModel/FavoritesViewModel.swift:16-18 | a move takes out the chosen rows and puts them, in order, before the destination row |
| Lists.FirstIndex | Culinex/View/RecipeDetailComponents/ExisitingIngredientView.swift:71-77 | `firstIndex(where:)` finds the first element with the identifier, or none when there is none |
| Lists.FirstWithId | Culinex/View/RecipeDetailComponents/ExisitingIngredientView.swift:71-77 | the first element with an identifier has it |
| Lists.RemoveAt | Culinex/View/RecipeDetailComponents/ExisitingIngredientView.swift:73 | `remove(at:)` drops exactly that one element |
| Lists.RemoveFirstWithId | Culinex/View/RecipeDetailComponents/ExisitingIngredientView.swift:73 | removing the one element with an identifier from a list of distinct identifiers leaves none with it |
| Lists.Toggle | Culinex/View/RecipeDetailComponents/ExisitingIngredientView.swift:71-77 | toggling removes the first element with the identifier, or appends the new one; identifiers stay distinct |
| Lists.ToggleRemovesFirstMatch | Culinex/View/RecipeDetailComponents/ExisitingIngredientView.swift:71-77 | the removal is of the first element with that identifier |
| Lists.ToggleTwice | Culinex/View/RecipeDetailComponents/ExisitingIngredientView.swift:71-77 | toggling an absent element twice restores the list |
| Lists.ToggleKeepsOtherIds | Culinex/View/RecipeDetailComponents/ExisitingIngredientView.swift:71-77 | toggling one identifier leaves every other identifier's presence unchanged |
| Lists.HasIdAfterRemoveAt | Culinex/View/RecipeDetailComponents/ExisitingIngredientView.swift:71-77 | removing one entry keeps every identifier other than that entry's, and adds none |
| Lists.HasIdAfterAppend | Culinex/View/RecipeDetailComponents/ExisitingIngredientView.swift:71-77 | appending an entry adds exactly its identifier to those present |
| Lists.Filter | Culinex/View/RecipeDetailComponents/ExisitingIngredientView.swift:18-24 | `filter` keeps exactly the elements that satisfy the predicate, each as often as it occurs in the input; `FilterConcat` and `FilterSingleton` fix their order |
| Lists.FilterKeepsAll | Culinex/View/RecipeDetailComponents/ExisitingIngredientView.swift:18-24 | when every element satisfies the predicate, `filter` returns the list unchanged, order included |
| Lists.FilterCons | Culinex/View/RecipeDetailComponents/ExisitingIngredientView.swift:18-24 | `filter` on a non-empty list keeps its first element exactly when it passes, then filters the rest |
| Lists.FilterSingleton | Culinex/View/RecipeDetailComponents/ExisitingIngredientView.swift:18-24 | `filter` on one element keeps it exactly when it satisfies the predicate |
| Lists.FilterConcat | Culinex/View/RecipeDetailComponents/ExisitingIngredientView.swift:18-24 | `filter` splits over concatenation, so the kept elements stay in their order |
| Lists.FilterAfterPrefix | Culinex/View/AddFavoriteView.swift:154-157 | a loop that appends each passing element to a list has, after its first pass, the list followed by the filter of the rest equal to the list followed by the whole filter |
| Lists.FilterAgreeing | Culinex/View/AddFavoriteView.swift:154-155 | two predicates that agree on every element filter the same elements |
| Ordering.LexReflexive | Culinex/Model/RecipeStep.swift:55 | `<=` on names is reflexive |
| Ordering.LexTotal | Culinex/Model/RecipeStep.swift:55 | any two names are comparable |
| Ordering.LexTransitive | Culinex/Model/RecipeStep.swift:55 | `<=` on names is transitive |
| Ordering.LexAntisymmetric | Culinex/Model/RecipeStep.swift:55 | names each `<=` the other are equal |
| Ordering.InsertByText | Culinex/Model/RecipeStep.swift:55 | inserting into a list sorted by name keeps it sorted and adds just that element |
| Ordering.InsertStepByText | Culinex/Model/RecipeStep.swift:55 | an element that sorts after the head goes into the tail, and the head stays first |
| Ordering.SortByText | Culinex/Model/RecipeStep.swift:55 | `sorted { $0.name < $1.name }` is a permutation sorted by name |
| Ordering.InsertByRank | Culinex/View/Recipes/RecipeDetail/RecipeDetailSteps/RecipeDetailStepsView.swift:16-18 | inserting into a list sorted by order keeps it sorted and adds just that element |
| Ordering.InsertStepByRank | Culinex/View/Recipes/RecipeDetail/RecipeDetailSteps/RecipeDetailStepsView.swift:16-18 | an element that ranks after the head goes into the tail, and the head stays first |
| Ordering.SortByRank | Culinex/View/Recipes/RecipeDetail/RecipeDetailSteps/RecipeDetailStepsView.swift:16-18 | sorting by `order` gives a permutation in non-decreasing order |
| Favorites.FavoriteName | Culinex/View/AddFavoriteView.swift:114 | the typed name, or "New Favorite n+1" when nothing was typed; never empty |
| Favorites.FilteredRecipes | Culinex/View/AddFavoriteView.swift:128-133 | an empty search shows the whole library; otherwise exactly the matching recipes, each as often as stored, in the library's order by `FilteredInOrder` |
| Favorites.FilteredInOrder | Culinex/View/AddFavoriteView.swift:128-133 | the search keeps the library's order: it splits over concatenation, and one recipe is shown exactly when the search is empty or its name matches |
| Favorites.HasIdInExtension | Culinex/View/AddFavoriteView.swift:155 | a list that extends another holds every identifier the other holds |
| Favorites.AddSelected | Culinex/View/AddFavoriteView.swift:153-158 | the loop of "Add Selected" as a recursion over the shown recipes; `AddSelectedMeetsSpec` and `AddSelectedInFilteredOrder` state what it appends |
| Favorites.NewlySelected | Culinex/View/AddFavoriteView.swift:154-155 | the recipes the loop appends: selected, and with no entry of that identifier in the list yet |
| Favorites.AddSelectedInFilteredOrder | Culinex/View/AddFavoriteView.swift:153-158 | with no identifier shown twice, the new list is the old one followed by the selected, missing shown recipes, in the order shown |
| Favorites.NewlySelectedAfterPass | Culinex/View/AddFavoriteView.swift:154-157 | appending one shown recipe does not change which of the others are still to be appended |
| Favorites.AddSelectedMeetsSpec | Culinex/View/AddFavoriteView.swift:153-160 | "Add Selected" keeps the old list as a prefix, adds no repeated identifier, puts every selected shown recipe in the list, appends only selected shown recipes that were missing, and, with no identifier shown twice, appends exactly those in the order shown |
| Favorites.AddSelectedFirst | Culinex/View/AddFavoriteView.swift:154-157 | one pass of the loop handles the first shown recipe and continues with the rest |
| Favorites.AddSelectedAt | Culinex/View/AddFavoriteView.swift:154-157 | the pass at position `i` appends that recipe exactly when it is selected and not yet listed, then continues from position `i + 1` |
| Favorites.AddSelectedStep | Culinex/View/AddFavoriteView.swift:154-157 | the promise of "Add Selected" extends from the rest of the shown recipes to all of them |
| Favorites.AddSelectedIdempotent | Culinex/View/AddFavoriteView.swift:153-160 | adding the same selection twice adds nothing the second time |
| Favorites.AddSelectedKeepsCovered | Culinex/View/AddFavoriteView.swift:155 | when every selected shown recipe is already in the list, nothing is added |
| FavoritesViewModel.FavoriteViewModel.constructor | iCooking/ViewModel/FavoritesViewModel.swift:5 | the view model starts with no favourites |
| FavoritesViewModel.FavoriteViewModel.AddFavorite | iCooking/ViewModel/FavoritesViewModel.swift:7-10 | the new favourite is appended with the given name and recipes |
| FavoritesViewModel.FavoriteViewModel.DeleteFavorite | iCooking/ViewModel/FavoritesViewModel.swift:12-14 | the chosen rows are removed and the list shrinks by their number |
| FavoritesViewModel.FavoriteViewModel.MoveFavorite | iCooking/ViewModel/FavoritesViewModel.swift:16-18 | the rows are moved and no favourite is lost or added |
| AddFavorite.SaveDisabled | Culinex/View/AddFavoriteView.swift:48 | Save is disabled exactly when no recipe is chosen |
| AddFavorite.SaveNewFavorite | Culinex/View/AddFavoriteView.swift:108-118 | with no recipes the alert is raised; otherwise one favourite with the chosen recipes and name is stored and the screen dismissed |
| AddFavorite.SaveStoresOneFavorite | Culinex/View/AddFavoriteView.swift:108-118 | a save stores exactly one favourite, named by `FavoriteName`, and a disabled save stores none |
| AddFavorite.EmptySaveRaisesAlert | Culinex/View/AddFavoriteView.swift:109-111 | saving with no recipes only raises the alert, however often |
| AddFavorite.NewFavoriteScreen.constructor | Culinex/View/AddFavoriteView.swift:9-12 | the screen starts with an empty name and no recipes, sheets and alerts closed |
| AddFavorite.NewFavoriteScreen.TapSave | Culinex/View/AddFavoriteView.swift:46-48 | Save is `SaveNewFavorite`, and does nothing while disabled |
| AddFavorite.NewFavoriteScreen.TapCancel | Culinex/View/AddFavoriteView.swift:33-35 | Cancel dismisses |
| AddFavorite.NewFavoriteScreen.TapAddRecipes | Culinex/View/AddFavoriteView.swift:74-75 | "Add recipes" opens the picker |
| AddFavorite.NewFavoriteScreen.DeleteRows | Culinex/View/AddFavoriteView.swift:90-92 | a swipe removes the rows by `RemoveOffsets` |
| AddFavorite.NewFavoriteScreen.MoveRows | Culinex/View/AddFavoriteView.swift:93-95 | a drag moves the rows by `Move` |
| AddFavorite.RecipeSelectionSheet.constructor | Culinex/View/AddFavoriteView.swift:123-126 | the picker starts with an empty search and no selection |
| AddFavorite.RecipeSelectionSheet.TapAddSelected | Culinex/View/AddFavoriteView.swift:153-160 | the screen's list becomes `AddSelected` of the shown recipes and the picker closes; nothing else changes |
| LegacyAddFavorite.Save | iCooking/View/AddFavoriteView.swift:55-71 | with no recipes the alert flag is toggled; otherwise the generated or typed name is stored with the recipes and the screen closed |
| LegacyAddFavorite.EmptySaveTwiceRestoresAlert | iCooking/View/AddFavoriteView.swift:67-70 | saving an empty list twice leaves the alert as it was |
| LegacyAddFavorite.SaveStoresOneFavorite | iCooking/View/AddFavoriteView.swift:55-66 | a save with recipes stores exactly one favourite and writes the generated name back into the field |
| LegacyAddFavorite.NewFavoriteView.constructor | iCooking/View/AddFavoriteView.swift:11-22 | the screen starts with no recipes and an empty name |
| LegacyAddFavorite.NewFavoriteView.TapSave | iCooking/View/AddFavoriteView.swift:55-71 | Save is `Save` |
| LegacyAddFavorite.NewFavoriteView.TapCancel | iCooking/View/AddFavoriteView.swift:32-34 | Cancel toggles the presentation flag |
| LegacyAddFavorite.NewFavoriteView.TapAddRecipe | iCooking/View/AddFavoriteView.swift:88-90 | "Add recipe" opens the picker |
| LegacyAddFavorite.NewFavoriteView.DeleteRows | iCooking/View/AddFavoriteView.swift:119-121 | a swipe removes the rows by `RemoveOffsets` |
| LegacyAddFavorite.NewFavoriteView.MoveRows | iCooking/View/AddFavoriteView.swift:122-124 | a drag moves the rows by `Move` |
| LegacyAddFavorite.BottomSheet.constructor | iCooking/View/AddFavoriteView.swift:147-150 | the picker starts with an empty search and no selection |
| LegacyAddFavorite.BottomSheet.TapAddSelectedRecipes | iCooking/View/AddFavoriteView.swift:176-183 | the screen's list becomes `AddSelected` of the shown recipes and the picker closes |
| RecipeEditing.EmptyDraft | Culinex/View/RecipeDetailComponents/RecipeDetailView.swift:340-345 | a cleared draft has no text, skills, ingredients or tools, a zero duration and the minute unit |
| RecipeEditing.StepOf | Culinex/View/RecipeDetailComponents/RecipeDetailView.swift:329-335 | the new step carries the draft's five fields |
| RecipeEditing.CanSaveStep | Culinex/View/RecipeDetailComponents/RecipeDetailView.swift:470-477 | a step can be saved exactly when no field is missing |
| RecipeEditing.SaveStepDisabled | Culinex/View/RecipeDetailComponents/RecipeDetailView.swift:492 | "Save Step" is disabled exactly when the description is missing |
| RecipeEditing.MissingFields | Culinex/View/RecipeDetailComponents/RecipeDetailView.swift:498-503 | the list holds exactly the missing fields, at most five, and is empty exactly when the step can be saved |
| RecipeEditing.FieldLine | Culinex/View/RecipeDetailComponents/RecipeDetailView.swift:499-503 | every line of the alert starts with a bullet |
| RecipeEditing.Lines | Culinex/View/RecipeDetailComponents/RecipeDetailView.swift:498-503 | the lines are empty exactly when no field is listed |
| RecipeEditing.LinesAppend | Culinex/View/RecipeDetailComponents/RecipeDetailView.swift:498-503 | the lines of two lists concatenate |
| RecipeEditing.LineIf | Culinex/View/RecipeDetailComponents/RecipeDetailView.swift:499-503 | each conditional part is the line of that field when missing |
| RecipeEditing.LinesOfFive | Culinex/View/RecipeDetailComponents/RecipeDetailView.swift:498-503 | the five conditional parts concatenate into the lines of all five |
| RecipeEditing.AlertMessage | Culinex/View/RecipeDetailComponents/RecipeDetailView.swift:498-503 | the header followed by one conditional line per field; `AlertListsMissingFields` and `AlertNamesExactlyTheMissingFields` prove which fields it names |
| RecipeEditing.AlertListsMissingFields | Culinex/View/RecipeDetailComponents/RecipeDetailView.swift:498-503 | the alert message is the header followed by one line per missing field |
| RecipeEditing.AlertOfFlags | Culinex/View/RecipeDetailComponents/RecipeDetailView.swift:498-503 | for every combination of missing fields, appending a line per missing field gives the header followed by the lines of exactly those fields, in the fixed order |
| RecipeEditing.AlertNamesExactlyTheMissingFields | Culinex/View/RecipeDetailComponents/RecipeDetailView.swift:498-503 | a field is named in the alert exactly when it is missing, and the alert is the bare header exactly when the step can be saved |
| RecipeEditing.TabCompleted | Culinex/View/RecipeDetailComponents/RecipeDetailView.swift:507-538 | each tab's checkmark follows its own fields, the Description tab needing a description or a tool |
| RecipeEditing.TabsAndAcceptance | Culinex/View/RecipeDetailComponents/RecipeDetailView.swift:507-538 | a step that can be saved shows every tab complete, while a draft with tools but no description shows every tab complete and still cannot be saved |
| RecipeEditing.Init | Culinex/View/RecipeDetailComponents/RecipeDetailView.swift:37-44 | the editable name and steps start as the recipe's, with an empty draft |
| RecipeEditing.CreateNewStep | Culinex/View/RecipeDetailComponents/RecipeDetailView.swift:328-348 | the draft is appended as a step and cleared, the side bar closed and the tab reset |
| RecipeEditing.SaveRecipe | Culinex/View/RecipeDetailComponents/RecipeDetailView.swift:350-363 | the recipe takes the edited name and steps, and is inserted only when new |
| RecipeEditing.TapSaveStep | Culinex/View/RecipeDetailComponents/RecipeDetailView.swift:469-486 | a complete draft becomes a step, saved at once for an existing recipe; an incomplete one raises the alert |
| RecipeEditing.SaveStepOutcome | Culinex/View/RecipeDetailComponents/RecipeDetailView.swift:469-486 | the two outcomes of "Save Step", stated on the whole editor |
| RecipeEditing.TapCancelStep | Culinex/View/RecipeDetailComponents/RecipeDetailView.swift:450-460 | Cancel clears the draft and closes the side bar, leaving the steps alone |
| RecipeEditing.RecipeSaveDisabled | Culinex/View/RecipeDetailComponents/RecipeDetailView.swift:278 | Save is disabled exactly when the name or the step list is empty |
| RecipeEditing.TapSaveRecipe | Culinex/View/RecipeDetailComponents/RecipeDetailView.swift:271-277 | Save stores the name and steps and leaves edit mode |
| RecipeEditing.InsertedAtMostOnce | Culinex/View/RecipeDetailComponents/RecipeDetailView.swift:350-356 | however often it is saved, a recipe is inserted at most once, exactly once if it was new |
| RecipeEditing.TapCancelName | Culinex/View/RecipeDetailComponents/RecipeDetailView.swift:249-257 | Cancel restores the stored name and leaves edit mode, or clears the field when the recipe has no name yet |
| RecipeDetailEditor.RecipeDetailScreen.constructor | Culinex/View/RecipeDetailComponents/RecipeDetailView.swift:37-44 | the screen starts in the state `Init` |
| RecipeDetailEditor.RecipeDetailScreen.CreateNewStep | Culinex/View/RecipeDetailComponents/RecipeDetailView.swift:328-348 | `createNewStep()` is `CreateNewStep` |
| RecipeDetailEditor.RecipeDetailScreen.SaveRecipe | Culinex/View/RecipeDetailComponents/RecipeDetailView.swift:350-363 | `saveRecipe()` is `SaveRecipe` |
| RecipeDetailEditor.RecipeDetailScreen.TapSaveStep | Culinex/View/RecipeDetailComponents/RecipeDetailView.swift:469-492 | "Save Step" is `TapSaveStep`, and does nothing while disabled |
| RecipeDetailEditor.RecipeDetailScreen.TapCancelStep | Culinex/View/RecipeDetailComponents/RecipeDetailView.swift:450-460 | Cancel is `TapCancelStep` |
| RecipeDetailEditor.RecipeDetailScreen.TapCreateStep | Culinex/View/RecipeDetailComponents/RecipeDetailView.swift:221-225 | "Create a new step" flips the side bar |
| RecipeDetailEditor.RecipeDetailScreen.TapTab | Culinex/View/RecipeDetailComponents/RecipeDetailView.swift:507-538 | a tab button selects its tab |
| RecipeDetailEditor.RecipeDetailScreen.TapSaveRecipe | Culinex/View/RecipeDetailComponents/RecipeDetailView.swift:270-280 | Save is `TapSaveRecipe`, and does nothing while disabled |
| RecipeDetailEditor.RecipeDetailScreen.TapEditName | Culinex/View/RecipeDetailComponents/RecipeDetailView.swift:293-301 | the pencil starts editing the name |
| RecipeDetailEditor.RecipeDetailScreen.TapCancelName | Culinex/View/RecipeDetailComponents/RecipeDetailView.swift:249-257 | Cancel is `TapCancelName` |
| LegacyRecipeDetailEditor.RecipeDetailScreen.constructor | iCooking/View/RecipeDetailComponents/RecipeDetailView.swift:36-45 | the screen starts in the state `Init` |
| LegacyRecipeDetailEditor.RecipeDetailScreen.CreateNewStep | iCooking/View/RecipeDetailComponents/RecipeDetailView.swift:234-255 | `createNewStep()` is `CreateNewStep` |
| LegacyRecipeDetailEditor.RecipeDetailScreen.SaveRecipe | iCooking/View/RecipeDetailComponents/RecipeDetailView.swift:257-270 | `saveRecipe()` is `SaveRecipe` |
| LegacyRecipeDetailEditor.RecipeDetailScreen.TapSaveStep | iCooking/View/RecipeDetailComponents/RecipeDetailView.swift:335-355 | "Done" is `TapSaveStep`, and does nothing while disabled |
| LegacyRecipeDetailEditor.RecipeDetailScreen.TapCancelStep | iCooking/View/RecipeDetailComponents/RecipeDetailView.swift:319-328 | Cancel is `TapCancelStep` |
| LegacyRecipeDetailEditor.RecipeDetailScreen.TapCreateStep | iCooking/View/RecipeDetailComponents/RecipeDetailView.swift:127-129 | "Create a new step" flips the side bar |
| LegacyRecipeDetailEditor.RecipeDetailScreen.TapTab | iCooking/View/RecipeDetailComponents/RecipeDetailView.swift:370-401 | a tab button selects its tab |
| LegacyRecipeDetailEditor.RecipeDetailScreen.TapSaveRecipe | iCooking/View/RecipeDetailComponents/RecipeDetailView.swift:182-194 | Save is `TapSaveRecipe`, and does nothing while disabled |
| LegacyRecipeDetailEditor.RecipeDetailScreen.TapEditName | iCooking/View/RecipeDetailComponents/RecipeDetailView.swift:205-211 | the pencil starts editing the name |
| LegacyRecipeDetailEditor.RecipeDetailScreen.TapCancelName | iCooking/View/RecipeDetailComponents/RecipeDetailView.swift:163-171 | Cancel is `TapCancelName` |
| RecipeInspector.SortedSteps | Culinex/View/Recipes/RecipeDetail/RecipeDetailSteps/RecipeDetailStepsView.swift:16-18 | the steps, sorted by `order`, with none lost or added |
| RecipeInspector.SortedIngredients | Culinex/View/Recipes/RecipeDetail/RecipeDetailSteps/RecipeDetailStepsView.swift:88-91 | the usages sorted by ingredient name, with a usage that has no ingredient counted as the empty name |
| RecipeInspector.SortedSkills | Culinex/View/Recipes/RecipeDetail/RecipeDetailSteps/RecipeDetailStepsView.swift:121-124 | the skills sorted by name, with none lost or added |
| RecipeInspector.SelectionOf | Culinex/View/Recipes/RecipeDetail/RecipeDetailSteps/RecipeDetailStepsView.swift:23-28 | the list's selection is the step shown in the inspector, and there is none while idle or editing |
| RecipeInspector.StateForSelection | Culinex/View/Recipes/RecipeDetail/RecipeDetailSteps/RecipeDetailStepsView.swift:29-35 | setting the selection shows the chosen step or goes idle; reading it back gives what was set, and it never starts an edit |
| RecipeInspector.SetOfGetOutsideEditing | Culinex/View/Recipes/RecipeDetail/RecipeDetailSteps/RecipeDetailStepsView.swift:23-35 | outside editing, setting the selection read from a state gives that state back |
| RecipeInspector.IsEditing | Culinex/View/Recipes/RecipeDetail/RecipeDetailSteps/RecipeDetailStepsView.swift:39-44 | while a step is edited no row is selected |
| RecipeInspector.Select | Culinex/View/Recipes/RecipeDetail/RecipeDetailSteps/RecipeDetailStepsView.swift:29-35 | choosing a row sets the selection, except while editing when the list is disabled |
| RecipeInspector.Edit | Culinex/View/Recipes/RecipeDetail/RecipeDetailSteps/RecipeDetailStepsView.swift:53-57 | the pencil edits that step and shows the inspector, except while editing |
| RecipeInspector.ShowInfo | Culinex/View/Recipes/RecipeDetail/RecipeDetailView.swift:47-50 | the info button shows the inspector with nothing chosen |
| RecipeInspector.Toggle | Culinex/View/Recipes/RecipeDetail/RecipeDetailView.swift:55-57 | the toggle flips whether the inspector is shown |
| RecipeInspector.EditIdempotent | Culinex/View/Recipes/RecipeDetail/RecipeDetailSteps/RecipeDetailStepsView.swift:53-57 | a second tap on the same pencil changes nothing more |
| RecipeInspector.ToggleTwice | Culinex/View/Recipes/RecipeDetail/RecipeDetailView.swift:55-57 | two toggles restore the inspector |
| RecipeInspector.OnlyInfoEndsEditing | Culinex/View/Recipes/RecipeDetail/RecipeDetailSteps/RecipeDetailStepsView.swift:74 | once a step is being edited, no sequence of taps without the info button ends the edit |
| RecipeInspector.NoEditWithoutPencil | Culinex/View/Recipes/RecipeDetail/RecipeDetailSteps/RecipeDetailStepsView.swift:29-57 | without a pencil tap no step is ever edited |
| RecipeInspector.RecipeDetailScreen.constructor | Culinex/View/Recipes/RecipeDetail/RecipeDetailView.swift:21-22 | the screen starts idle with the inspector hidden |
| RecipeInspector.RecipeDetailScreen.TapShare | Culinex/View/Recipes/RecipeDetail/RecipeDetailView.swift:39-40 | the share button changes nothing |
| RecipeInspector.RecipeDetailScreen.TapInfo | Culinex/View/Recipes/RecipeDetail/RecipeDetailView.swift:47-50 | the info button is `ShowInfo` |
| RecipeInspector.RecipeDetailScreen.TapToggle | Culinex/View/Recipes/RecipeDetail/RecipeDetailView.swift:55-57 | the toggle is `Toggle` |
| RecipeInspector.RecipeDetailScreen.SelectRow | Culinex/View/Recipes/RecipeDetail/RecipeDetailSteps/RecipeDetailStepsView.swift:29-35 | a row choice is `Select` |
| RecipeInspector.RecipeDetailScreen.TapEdit | Culinex/View/Recipes/RecipeDetail/RecipeDetailSteps/RecipeDetailStepsView.swift:53-57 | a pencil tap is `Edit` |

## Left out

- The view bodies are left out: layout, colours, animations, haptics, navigation titles and
  the AR viewer.
- The persistent store is left out. `insert`, `delete` and `save` are either not modelled or,
  in the recipe editor, the counter `inserts` of insertions. A failing `save` is not modelled.
- The recipe object that the editor writes to is shared with the rest of the app. It is the
  fields `storedName` and `storedSteps` of the editor, so no aliasing is captured.
- The clock is left out: each one-second tick of a timer is a call of `Tick`.
- Text rendering is left out: `%02d` clock text, `%.2f`, `%g`, integer interpolation,
  `Double(String)`, `localizedCaseInsensitiveContains` and iCooking's
  `localizedStandardContains` (the `contains` of `LegacyAddFavorite`) are function parameters. The
  model promises what is done with their results, not the text itself.
- Swift `Double` is exact `real` here, so rounding is not modelled. The one place where it
  shows is the 0.01 window of the glyph table.
- The image picker, drag and drop between lists, and the camera are not part of this model.
- `RecipeDetailInspectorForm`, the form inside the inspector that edits a step's fields, is
  not part of this model. The inspector state and its selection are modelled.
- RecipeDetailEditor.RecipeDetailScreen: the six new-step `@State` variables are the one field
  `draft`, so each handler assigns that record rather than six fields.
- RecipeEditing.StepOf: both editors call an initializer
  `RecipeStep(ingredients:description:skills:tools:duration:)` that neither step model
  declares. The new step is therefore the record of those five arguments, not a
  `RecipeSteps.RecipeStep`.
- RecipeEditing.CanSaveStep: the check `durationUnit.rawValue.isEmpty` is never true for the
  three units, so it is left out.
- RecipeEditing.AlertNamesExactlyTheMissingFields: "Save Step" is disabled without a
  description, so the alert's "• Description" line cannot be shown. The model still builds
  the message for every draft.
- iCooking's `Skill` and `Ingredient` are modelled with the Culinex types.
- AddFavorite.SaveNewFavorite: the alert branch for an empty list cannot be reached from the
  screen, because Save is disabled then. The function still models it.
- CookingSession.NextWithoutSteps: with no steps, the clamp of Next gives -1. The screen
  cannot get there: with no steps, its first render reads `steps[0]` (line 116 of Culinex's
  `StepFullScreenView.swift`, line 29 of iCooking's) and traps. That trap is in the view body,
  which is left out.
- CookingSession.CurrentStep: the screen's body never reads `currentStep`. It indexes `steps`
  directly, so the placeholder "No step data available." is never shown. The property is
  modelled as written.
- TimerComponent.Progress: the progress is not capped at 1, as in the source. The view passes
  equal remaining and total times, so it does not exceed 1 there.
- Swift's run-time traps are not modelled. `Int` is unbounded here, so arithmetic overflow
  does not trap, and `Int(x)` is plain truncation, with no trap for NaN or for a `Double`
  out of `Int`'s range.
- Lists.RemoveOffsets and Lists.Move: an offset out of range traps in Swift's
  `remove(atOffsets:)` and `move(fromOffsets:toOffset:)`. Here it is a `requires`, so the
  model says nothing about that case.
- Favorites.AddSelectedInFilteredOrder: the exact order of what is appended is stated only
  when no identifier is shown twice. The recipes of the store have distinct identifiers.
  With a repeated identifier, only the first copy is appended.
- The sort order of strings is lexicographic by character. Swift's `<` compares by Unicode
  scalar values in a way the model does not reproduce exactly for combining characters.
- String equality is character by character. Swift's `String` `==`, `contains` and
  `Dictionary` keys use canonical equivalence, so "é" equals "e" followed by U+0301 there
  but not here. This affects ToolEditor.AddToolIfValid and LegacyToolEditor.AddTool (the
  duplicate test), ToolEditor.RemoveTool (which tags are removed), Recipes.Consolidate (which
  rows merge), Tools.Same and Skills.Icon (the name comparisons).

## Findings

| source | as written | input that shows it | evidently intended | confidence | as-written member | corrected member |
|---|---|---|---|---|---|---|
| iCooking/View/StepsDetailComponents/StepFullScreenView.swift:133-135 | play after completion only toggles `isTimerRunning`, leaving the timer completed at zero | a 1-second timer ticks once to completion, then play is tapped | play on a completed timer restarts it from the step's total, as the Culinex generation does | high; not executed | LegacyCookingSession.PlayAfterCompletionSticks | CookingSession.ReplayAfterCompletion |
