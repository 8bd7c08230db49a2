/** The recipe editor screen that both generations call `RecipeDetailView`: the recipe's
    name and steps are copied into editable state, new steps are drafted in the side bar
    (`NewStepTabs`), checked, appended, and written back to the recipe on Save.

    The two generations run the same logic; this module holds it once, over a duration unit
    type `U` that each generation fixes. The view builds a new step with an initializer
    `RecipeStep(ingredients:description:skills:tools:duration:)` that neither generation's
    step model declares, so a step here is the record of exactly those five arguments. */
module RecipeEditing {
  import opened RecipeIngredients
  import opened Skills

  /** What `RecipeStep(ingredients:description:skills:tools:duration:)` is given. */
  datatype StepRecord<U> = StepRecord(
    ingredients: seq<Ingredient>, description: string, skills: seq<Skill>, tools: seq<string>,
    durationValue: real, durationUnit: U)

  /** The fields of the step being drafted. */
  datatype Draft<U> = Draft(
    description: string, skills: seq<Skill>, ingredients: seq<Ingredient>,
    durationValue: real, durationUnit: U, tools: seq<string>)

  /** The draft the screen starts with and returns to: empty fields, 0 minutes. */
  function EmptyDraft<U>(minutes: U): (d: Draft<U>)
    ensures d.description == [] && d.skills == [] && d.ingredients == [] && d.tools == []
    ensures d.durationValue == 0.0 && d.durationUnit == minutes
  {
    Draft("", [], [], 0.0, minutes, [])
  }

  /** The step `createNewStep()` builds from the draft. */
  function StepOf<U>(d: Draft<U>): (s: StepRecord<U>)
    ensures s.ingredients == d.ingredients && s.description == d.description
    ensures s.skills == d.skills && s.tools == d.tools
    ensures s.durationValue == d.durationValue && s.durationUnit == d.durationUnit
  {
    StepRecord(d.ingredients, d.description, d.skills, d.tools, d.durationValue, d.durationUnit)
  }

  // ---------------------------------------------------------------------------------------
  // Checking a draft

  /** The required fields, in the order the alert names them. */
  datatype Field = Description | Skills | Ingredients | Duration | Tools

  predicate IsMissing<U>(d: Draft<U>, f: Field) {
    match f
    case Description => d.description == []
    case Skills => d.skills == []
    case Ingredients => d.ingredients == []
    case Duration => d.durationValue == 0.0
    case Tools => d.tools == []
  }

  /** The check of "Save Step" / "Done". The unit's raw value ("hr", "min" or "sec") is never
      empty, so its test never fails and does not appear. */
  function CanSaveStep<U>(d: Draft<U>): (r: bool)
    ensures r <==> forall f: Field :: !IsMissing(d, f)
  {
    assert IsMissing(d, Description) == (d.description == []);
    assert IsMissing(d, Skills) == (d.skills == []);
    assert IsMissing(d, Ingredients) == (d.ingredients == []);
    assert IsMissing(d, Duration) == (d.durationValue == 0.0);
    assert IsMissing(d, Tools) == (d.tools == []);
    !(d.description == [] || d.skills == [] || d.ingredients == [] || d.durationValue == 0.0
      || d.tools == [])
  }

  /** The step button is disabled while the description is empty. */
  function SaveStepDisabled<U>(d: Draft<U>): (r: bool)
    ensures r <==> IsMissing(d, Description)
  {
    d.description == []
  }

  /** The fields the draft lacks, in the alert's order. */
  function MissingFields<U>(d: Draft<U>): (r: seq<Field>)
    ensures forall f: Field :: f in r <==> IsMissing(d, f)
    ensures r == [] <==> CanSaveStep(d)
    ensures |r| <= 5
  {
    Opt(d.description == [], Description) + Opt(d.skills == [], Skills)
    + Opt(d.ingredients == [], Ingredients) + Opt(d.durationValue == 0.0, Duration)
    + Opt(d.tools == [], Tools)
  }

  function Opt(missing: bool, f: Field): seq<Field> {
    if missing then [f] else []
  }

  /** The line of the alert that names a field; the last has no line break. */
  function FieldLine(f: Field): (r: string)
    ensures |r| > 0 && r[0] == '\U{2022}'
  {
    match f
    case Description => "\U{2022} Description\n"
    case Skills => "\U{2022} Skills\n"
    case Ingredients => "\U{2022} Ingredients\n"
    case Duration => "\U{2022} Duration\n"
    case Tools => "\U{2022} Tools"
  }

  function Lines(fs: seq<Field>): (r: string)
    ensures fs == [] <==> r == []
  {
    if fs == [] then [] else FieldLine(fs[0]) + Lines(fs[1..])
  }

  lemma {:induction false} LinesAppend(a: seq<Field>, b: seq<Field>)
    ensures Lines(a + b) == Lines(a) + Lines(b)
  {
    if a != [] {
      assert (a + b)[1..] == a[1..] + b;
      LinesAppend(a[1..], b);
    } else {
      assert a + b == b;
    }
  }

  /** The line an optional field contributes. */
  function LineIf(missing: bool, f: Field): (r: string)
    ensures r == Lines(Opt(missing, f))
  {
    if missing then
      assert [f][1..] == [];
      FieldLine(f)
    else ""
  }

  lemma LinesOfFive(a: seq<Field>, b: seq<Field>, c: seq<Field>, e: seq<Field>, f: seq<Field>)
    ensures Lines(a + b + c + e + f) == Lines(a) + Lines(b) + Lines(c) + Lines(e) + Lines(f)
  {
    LinesAppend(a, b);
    LinesAppend(a + b, c);
    LinesAppend(a + b + c, e);
    LinesAppend(a + b + c + e, f);
  }

  const AlertHeader := "Please fill in all required fields:\n"

  /** The message of the "Missing Information" alert: the header, then a line for each
      missing field. */
  function AlertMessage<U>(d: Draft<U>): string {
    AlertHeader
    + LineIf(d.description == [], Description)
    + LineIf(d.skills == [], Skills)
    + LineIf(d.ingredients == [], Ingredients)
    + LineIf(d.durationValue == 0.0, Duration)
    + LineIf(d.tools == [], Tools)
  }

  /** The alert's lines are those of the missing fields, in the fixed order. */
  lemma AlertListsMissingFields<U>(d: Draft<U>)
    ensures AlertMessage(d) == AlertHeader + Lines(MissingFields(d))
  {
    AlertOfFlags(d.description == [], d.skills == [], d.ingredients == [],
                 d.durationValue == 0.0, d.tools == []);
  }

  /** The alert text for any combination of missing fields is the header followed by the
      lines of those fields, in the fixed order. */
  lemma AlertOfFlags(b1: bool, b2: bool, b3: bool, b4: bool, b5: bool)
    ensures AlertHeader + LineIf(b1, Description) + LineIf(b2, Skills) + LineIf(b3, Ingredients)
            + LineIf(b4, Duration) + LineIf(b5, Tools)
            == AlertHeader + Lines(Opt(b1, Description) + Opt(b2, Skills) + Opt(b3, Ingredients)
                                   + Opt(b4, Duration) + Opt(b5, Tools))
  {
    var o1, o2, o3, o4, o5 := Opt(b1, Description), Opt(b2, Skills), Opt(b3, Ingredients),
                              Opt(b4, Duration), Opt(b5, Tools);
    var l1, l2, l3, l4, l5 := Lines(o1), Lines(o2), Lines(o3), Lines(o4), Lines(o5);
    calc {
      AlertHeader + l1 + l2 + l3 + l4 + l5;
      { SeqAssoc6(AlertHeader, l1, l2, l3, l4, l5); }
      AlertHeader + (l1 + l2 + l3 + l4 + l5);
      { LinesOfFive(o1, o2, o3, o4, o5); }
      AlertHeader + Lines(o1 + o2 + o3 + o4 + o5);
    }
  }

  lemma SeqAssoc6(h: string, l1: string, l2: string, l3: string, l4: string, l5: string)
    ensures h + l1 + l2 + l3 + l4 + l5 == h + (l1 + l2 + l3 + l4 + l5)
  {
  }

  /** The alert names a field exactly when it is missing, and names none exactly when the
      draft would be accepted. */
  lemma AlertNamesExactlyTheMissingFields<U>(d: Draft<U>, f: Field)
    ensures f in MissingFields(d) <==> IsMissing(d, f)
    ensures AlertMessage(d) == AlertHeader <==> CanSaveStep(d)
  {
    AlertListsMissingFields(d);
    assert |AlertMessage(d)| == |AlertHeader| + |Lines(MissingFields(d))|;
  }

  /** Whether a tab shows its checkmark: 1 Ingredients, 2 Description, 3 Timer, 4 Skills. */
  function TabCompleted<U>(d: Draft<U>, tab: int): (r: bool)
    requires 1 <= tab <= 4
    ensures tab == 1 ==> (r <==> !IsMissing(d, Ingredients))
    ensures tab == 2 ==> (r <==> !IsMissing(d, Description) || !IsMissing(d, Tools))
    ensures tab == 3 ==> (r <==> !IsMissing(d, Duration))
    ensures tab == 4 ==> (r <==> !IsMissing(d, Skills))
  {
    if tab == 1 then d.ingredients != []
    else if tab == 2 then !(d.description == [] && d.tools == [])
    else if tab == 3 then d.durationValue != 0.0
    else d.skills != []
  }

  /** An accepted draft has every tab checked, but four checked tabs do not make a draft
      acceptable: the Description tab is checked by tools alone. */
  lemma TabsAndAcceptance<U>(d: Draft<U>, unit: U, ing: Ingredient, skill: Skill)
    ensures CanSaveStep(d) ==> forall t :: 1 <= t <= 4 ==> TabCompleted(d, t)
    ensures var e := Draft("", [skill], [ing], 1.0, unit, ["Knife"]);
      (forall t :: 1 <= t <= 4 ==> TabCompleted(e, t)) && !CanSaveStep(e)
  {
    var e := Draft("", [skill], [ing], 1.0, unit, ["Knife"]);
    assert IsMissing(e, Description);
  }

  // ---------------------------------------------------------------------------------------
  // The screen

  /** The screen's state. `storedName` and `storedSteps` are the fields of the recipe object
      being edited; `inserts` counts the times it was inserted into the store. */
  datatype Editor<U> = Editor(
    recipeName: string, recipeSteps: seq<StepRecord<U>>,
    storedName: string, storedSteps: seq<StepRecord<U>>, inserts: nat,
    isNewRecipe: bool, isEditingName: bool, isCreatingStep: bool, selectedTab: int,
    draft: Draft<U>, showAlert: bool)

  /** `init(recipe:isNewRecipe:)`: name and steps are copied from the recipe. */
  function Init<U>(name: string, steps: seq<StepRecord<U>>, isNewRecipe: bool, minutes: U): (e: Editor<U>)
    ensures e.recipeName == name == e.storedName && e.recipeSteps == steps == e.storedSteps
    ensures e.isNewRecipe == isNewRecipe && e.inserts == 0 && !e.isEditingName && !e.isCreatingStep
    ensures e.selectedTab == 0 && e.draft == EmptyDraft(minutes) && !e.showAlert
  {
    Editor(name, steps, name, steps, 0, isNewRecipe, false, false, 0, EmptyDraft(minutes), false)
  }

  /** `createNewStep()`: the drafted step is appended, the draft emptied, the side bar
      closed and the first tab selected. */
  function CreateNewStep<U>(e: Editor<U>, minutes: U): (r: Editor<U>)
    ensures r.recipeSteps == e.recipeSteps + [StepOf(e.draft)]
    ensures r.draft == EmptyDraft(minutes) && !r.isCreatingStep && r.selectedTab == 0
    ensures r == e.(recipeSteps := r.recipeSteps, draft := r.draft, isCreatingStep := false, selectedTab := 0)
  {
    e.(recipeSteps := e.recipeSteps + [StepOf(e.draft)], draft := EmptyDraft(minutes),
       isCreatingStep := false, selectedTab := 0)
  }

  /** `saveRecipe()`: name and steps are written into the recipe, which is inserted into the
      store only while it is new. */
  function SaveRecipe<U>(e: Editor<U>): (r: Editor<U>)
    ensures r.storedName == e.recipeName && r.storedSteps == e.recipeSteps
    ensures r.inserts == if e.isNewRecipe then e.inserts + 1 else e.inserts
    ensures r == e.(storedName := r.storedName, storedSteps := r.storedSteps, inserts := r.inserts)
  {
    e.(storedName := e.recipeName, storedSteps := e.recipeSteps,
       inserts := if e.isNewRecipe then e.inserts + 1 else e.inserts)
  }

  /** "Save Step" (Culinex) or "Done" (iCooking), tapped while enabled. */
  function TapSaveStep<U>(e: Editor<U>, minutes: U): (r: Editor<U>)
  {
    if CanSaveStep(e.draft) then
      var c := CreateNewStep(e, minutes);
      if !e.isNewRecipe then SaveRecipe(c) else c
    else e.(showAlert := true)
  }

  /** An accepted draft becomes exactly one new step, the draft is reset, and the recipe is
      written back at once unless it is new; a rejected draft only raises the alert. */
  lemma SaveStepOutcome<U>(e: Editor<U>, minutes: U)
    ensures CanSaveStep(e.draft) ==>
      var r := TapSaveStep(e, minutes);
      r.recipeSteps == e.recipeSteps + [StepOf(e.draft)] && r.draft == EmptyDraft(minutes)
      && !r.isCreatingStep && r.selectedTab == 0 && r.inserts == e.inserts
      && r.showAlert == e.showAlert && r.recipeName == e.recipeName
      && (e.isNewRecipe ==> r.storedSteps == e.storedSteps)
      && (!e.isNewRecipe ==> r.storedSteps == r.recipeSteps && r.storedName == e.recipeName)
    ensures !CanSaveStep(e.draft) ==> TapSaveStep(e, minutes) == e.(showAlert := true)
  {
  }

  /** "Cancel" in the side bar: the draft is emptied; the steps stay as they are. */
  function TapCancelStep<U>(e: Editor<U>, minutes: U): (r: Editor<U>)
    ensures r.recipeSteps == e.recipeSteps && r.storedSteps == e.storedSteps
    ensures r.draft == EmptyDraft(minutes) && !r.isCreatingStep && r.selectedTab == 0
  {
    e.(draft := EmptyDraft(minutes), isCreatingStep := false, selectedTab := 0)
  }

  /** The toolbar Save is disabled while the name or the step list is empty. */
  function RecipeSaveDisabled<U>(e: Editor<U>): (r: bool)
    ensures r <==> |e.recipeName| == 0 || |e.recipeSteps| == 0
  {
    e.recipeName == [] || e.recipeSteps == []
  }

  /** The toolbar Save: the recipe is written back and is no longer new. */
  function TapSaveRecipe<U>(e: Editor<U>): (r: Editor<U>)
    ensures r.storedName == e.recipeName && r.storedSteps == e.recipeSteps
    ensures !r.isNewRecipe && !r.isEditingName
  {
    SaveRecipe(e).(isEditingName := false, isNewRecipe := false)
  }

  /** However often the recipe is saved from the toolbar, it is inserted at most once, and
      only if it was new. */
  lemma {:induction false} InsertedAtMostOnce<U>(e: Editor<U>, n: nat)
    ensures SaveRepeatedly(e, n).inserts <= e.inserts + 1
    ensures !e.isNewRecipe ==> SaveRepeatedly(e, n).inserts == e.inserts
    ensures n > 0 && e.isNewRecipe ==> SaveRepeatedly(e, n).inserts == e.inserts + 1
    decreases n
  {
    if n > 0 {
      InsertedAtMostOnce(TapSaveRecipe(e), n - 1);
    }
  }

  /** `n` taps of the toolbar Save. */
  function SaveRepeatedly<U>(e: Editor<U>, n: nat): Editor<U>
    decreases n
  {
    if n == 0 then e else SaveRepeatedly(TapSaveRecipe(e), n - 1)
  }

  /** The toolbar Cancel while the name is edited: a recipe without a stored name gets an
      empty name field; otherwise the stored name comes back and editing ends. */
  function TapCancelName<U>(e: Editor<U>): (r: Editor<U>)
    ensures e.storedName == [] ==> r == e.(recipeName := "")
    ensures e.storedName != [] ==> r == e.(recipeName := e.storedName, isEditingName := false)
  {
    if e.storedName == [] then e.(recipeName := "")
    else e.(isEditingName := false, recipeName := e.storedName)
  }
}
