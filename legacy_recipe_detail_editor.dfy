/** iCooking's recipe editor screen (`RecipeDetailComponents/RecipeDetailView`) with its side
    bar (`NewStepTabs`). The recipe object's `name` and `steps` are the fields `storedName`
    and `storedSteps`, and `inserts` counts its insertions into the store. The six `@State`
    variables of the new step (`NewStepDiscription`, `NewStepSkills`, `NewStepIngredients`,
    `NewStepDurationValue`, `NewStepDurationUnit`, `NewStepTools`) are the one field `draft`. */
module LegacyRecipeDetailEditor {
  import opened RecipeIngredients
  import opened Skills
  import opened LegacyStepTimes
  import opened RecipeEditing

  type Step = StepRecord<UnitOfTime>

  class RecipeDetailScreen {
    var PassedInName: string
    var PassedInSteps: seq<Step>
    var storedName: string
    var storedSteps: seq<Step>
    var inserts: nat
    var isNewRecipe: bool
    var isEditingName: bool
    var isCreatingStep: bool
    var selectedTab: int
    var draft: RecipeEditing.Draft<UnitOfTime>
    var showAlert: bool

    function State(): Editor<UnitOfTime>
      reads this
    {
      Editor(PassedInName, PassedInSteps, storedName, storedSteps, inserts, isNewRecipe,
             isEditingName, isCreatingStep, selectedTab, draft, showAlert)
    }

    /** `init(recipe:isNewRecipe:)`. */
    constructor (name: string, steps: seq<Step>, isNewRecipe: bool)
      ensures State() == Init(name, steps, isNewRecipe, Min)
    {
      PassedInName, PassedInSteps, storedName, storedSteps := name, steps, name, steps;
      inserts, this.isNewRecipe, isEditingName, isCreatingStep := 0, isNewRecipe, false, false;
      selectedTab, draft, showAlert := 0, EmptyDraft(Min), false;
    }

    /** `createNewStep()`: the draft becomes a step at the end of the list and is cleared. */
    method CreateNewStep()
      modifies this
      ensures State() == RecipeEditing.CreateNewStep(old(State()), Min)
    {
      var newStep := StepRecord(draft.ingredients, draft.description, draft.skills, draft.tools,
                                draft.durationValue, draft.durationUnit);
      PassedInSteps := PassedInSteps + [newStep];
      draft := EmptyDraft(Min);
      isCreatingStep, selectedTab := false, 0;
    }

    /** `saveRecipe()`. */
    method SaveRecipe()
      modifies this
      ensures State() == RecipeEditing.SaveRecipe(old(State()))
    {
      storedName := PassedInName;
      storedSteps := PassedInSteps;
      if isNewRecipe {
        inserts := inserts + 1;
      }
    }

    /** "Done"; a tap while it is disabled has no effect. */
    method TapSaveStep()
      modifies this
      ensures SaveStepDisabled(old(draft)) ==> State() == old(State())
      ensures !SaveStepDisabled(old(draft)) ==> State() == RecipeEditing.TapSaveStep(old(State()), Min)
    {
      if draft.description == [] {
        return;
      }
      if !(draft.description == [] || draft.skills == [] || draft.ingredients == []
           || draft.durationValue == 0.0 || draft.tools == []) {
        CreateNewStep();
        if !isNewRecipe {
          SaveRecipe();
        }
      } else {
        showAlert := true;
      }
    }

    /** "Cancel" in the side bar. */
    method TapCancelStep()
      modifies this
      ensures State() == RecipeEditing.TapCancelStep(old(State()), Min)
    {
      draft := EmptyDraft(Min);
      isCreatingStep, selectedTab := false, 0;
    }

    /** "Create a new step". */
    method TapCreateStep()
      modifies this
      ensures State() == old(State()).(isCreatingStep := !old(isCreatingStep))
    {
      isCreatingStep := !isCreatingStep;
    }

    /** One of the four tab buttons. */
    method TapTab(tab: int)
      requires 1 <= tab <= 4
      modifies this
      ensures State() == old(State()).(selectedTab := tab)
    {
      selectedTab := tab;
    }

    /** The toolbar Save; a tap while it is disabled has no effect. */
    method TapSaveRecipe()
      modifies this
      ensures RecipeSaveDisabled(old(State())) ==> State() == old(State())
      ensures !RecipeSaveDisabled(old(State())) ==> State() == RecipeEditing.TapSaveRecipe(old(State()))
    {
      if PassedInName == [] || PassedInSteps == [] {
        return;
      }
      SaveRecipe();
      isEditingName := false;
      isNewRecipe := false;
    }

    method TapEditName()
      modifies this
      ensures State() == old(State()).(isEditingName := true)
    {
      isEditingName := true;
    }

    /** The toolbar Cancel while the name is edited. */
    method TapCancelName()
      modifies this
      ensures State() == RecipeEditing.TapCancelName(old(State()))
    {
      if storedName == [] {
        PassedInName := "";
      } else {
        isEditingName := false;
        PassedInName := storedName;
      }
    }
  }
}
