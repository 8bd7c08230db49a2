/** Culinex's `SetIngredientView`: the ingredient usages of one step. Only ingredients the
    step does not use yet can be picked; a pick adds a usage of one gram and opens it for
    editing, and swiping deletes usages. The store calls (`insert`, `delete`, `save`) have no
    counterpart here. */
module StepIngredients {
  import opened Wrappers
  import Lists
  import opened RecipeIngredients
  import opened RecipeSteps

  /** Some usage of the step refers to `ing` (`$0.ingredient?.id == ingredient.id`). */
  predicate Uses(usages: seq<RecipeIngredient>, ing: Ingredient) {
    exists k :: 0 <= k < |usages| && usages[k].ingredient.Some? && usages[k].ingredient.value.id == ing.id
  }

  /** `availableIngredients`: the stored ingredients, in order, that the step does not use. */
  function AvailableIngredients(all: seq<Ingredient>, usages: seq<RecipeIngredient>): (r: seq<Ingredient>)
    ensures forall k :: 0 <= k < |r| ==> !Uses(usages, r[k])
    ensures forall i: Ingredient :: multiset(r)[i] == if Uses(usages, i) then 0 else multiset(all)[i]
  {
    Lists.Filter(all, (i: Ingredient) => !Uses(usages, i))
  }

  /** The offer keeps the stored order: it works piecewise, and a single ingredient is
      offered exactly when the step does not use it. */
  lemma AvailableInOrder(a: seq<Ingredient>, b: seq<Ingredient>, x: Ingredient,
                         usages: seq<RecipeIngredient>)
    ensures AvailableIngredients(a + b, usages)
            == AvailableIngredients(a, usages) + AvailableIngredients(b, usages)
    ensures AvailableIngredients([x], usages) == if Uses(usages, x) then [] else [x]
  {
    var p := (i: Ingredient) => !Uses(usages, i);
    Lists.FilterConcat(a, b, p);
    Lists.FilterSingleton(x, p);
  }

  /** The "+" button is disabled exactly when nothing is left to pick. */
  function PlusDisabled(all: seq<Ingredient>, usages: seq<RecipeIngredient>): (r: bool)
    ensures r <==> forall k :: 0 <= k < |all| ==> Uses(usages, all[k])
  {
    var a := AvailableIngredients(all, usages);
    assert a == [] <==> forall k :: 0 <= k < |all| ==> Uses(usages, all[k]) by {
      if a != [] {
        assert a[0] in multiset(a);
        assert a[0] in multiset(all);
      } else {
        forall k | 0 <= k < |all| ensures Uses(usages, all[k]) {
          assert all[k] in multiset(all);
        }
      }
    }
    a == []
  }

  /** The usage a pick creates: one gram of `ing`, belonging to `step`. */
  function NewUsage(id: nat, ing: Ingredient, step: RecipeStep): (u: RecipeIngredient)
    ensures u.quantity == 1.0 && u.unit == "g"
    ensures u.ingredient == Some(ing) && u.step == Some(step.id)
  {
    NewRecipeIngredient(id, 1.0, "g", ing, step.id)
  }

  /** Picking `ing` appends exactly one new usage and leaves the rest of the step alone. */
  function Pick(step: RecipeStep, ing: Ingredient, id: nat): (r: RecipeStep)
    ensures r.stepIngredients == step.stepIngredients + [NewUsage(id, ing, step)]
    ensures r == step.(stepIngredients := r.stepIngredients)
  {
    step.(stepIngredients := step.stepIngredients + [NewUsage(id, ing, step)])
  }

  /** After a pick the ingredient is no longer available, and every other ingredient is as
      available as before. */
  lemma {:induction false} PickUsesUp(all: seq<Ingredient>, step: RecipeStep, ing: Ingredient,
                                      other: Ingredient, id: nat)
    ensures Uses(Pick(step, ing, id).stepIngredients, ing)
    ensures multiset(AvailableIngredients(all, Pick(step, ing, id).stepIngredients))[ing] == 0
    ensures other.id != ing.id ==>
      (Uses(Pick(step, ing, id).stepIngredients, other) <==> Uses(step.stepIngredients, other))
  {
    var old_ := step.stepIngredients;
    var new_ := Pick(step, ing, id).stepIngredients;
    assert new_[|old_|].ingredient == Some(ing);
    if other.id != ing.id {
      if Uses(old_, other) {
        var k :| 0 <= k < |old_| && old_[k].ingredient.Some? && old_[k].ingredient.value.id == other.id;
        assert new_[k] == old_[k];
      }
      if Uses(new_, other) {
        var k :| 0 <= k < |new_| && new_[k].ingredient.Some? && new_[k].ingredient.value.id == other.id;
        assert k < |old_| && new_[k] == old_[k];
      }
    }
  }

  /** `onDelete`: the usages at `offsets` go, the others stay in order. */
  function Delete(step: RecipeStep, offsets: set<int>): (r: RecipeStep)
    requires forall i :: i in offsets ==> 0 <= i < |step.stepIngredients|
    ensures |r.stepIngredients| == |step.stepIngredients| - |offsets|
    ensures multiset(r.stepIngredients) <= multiset(step.stepIngredients)
    ensures r == step.(stepIngredients := r.stepIngredients)
  {
    step.(stepIngredients := Lists.RemoveOffsets(step.stepIngredients, offsets))
  }

  /** A usage outside the deleted offsets survives the delete, after the survivors before it. */
  lemma DeleteKeepsOthers(step: RecipeStep, offsets: set<int>, i: int)
    requires forall j :: j in offsets ==> 0 <= j < |step.stepIngredients|
    requires 0 <= i < |step.stepIngredients| && i !in offsets
    ensures var p := i - |Lists.OffsetsIn(offsets, 0, i)|;
      0 <= p < |Delete(step, offsets).stepIngredients|
      && Delete(step, offsets).stepIngredients[p] == step.stepIngredients[i]
  {
    Lists.RemoveOffsetsKeeps(step.stepIngredients, offsets, i);
  }

  /** The view's state: the bound step, whether the picker sheet is up, and the usage open
      in the edit sheet. */
  class UsageList {
    var recipeStep: RecipeStep
    const allIngredients: seq<Ingredient>
    var showPicker: bool
    var editingRecipeIngredient: Option<RecipeIngredient>

    constructor (recipeStep: RecipeStep, allIngredients: seq<Ingredient>)
      ensures this.recipeStep == recipeStep && this.allIngredients == allIngredients
      ensures !showPicker && editingRecipeIngredient == None
    {
      this.recipeStep := recipeStep;
      this.allIngredients := allIngredients;
      showPicker := false;
      editingRecipeIngredient := None;
    }

    /** The "+" button; a tap on it while it is disabled has no effect. */
    method TapPlus()
      modifies this
      ensures showPicker == (old(showPicker) || !PlusDisabled(allIngredients, recipeStep.stepIngredients))
      ensures recipeStep == old(recipeStep) && editingRecipeIngredient == old(editingRecipeIngredient)
    {
      if !PlusDisabled(allIngredients, recipeStep.stepIngredients) {
        showPicker := true;
      }
    }

    /** A row of the picker: the new usage is added, the picker closes and the usage opens in
        the edit sheet. */
    method PickIngredient(ing: Ingredient, id: nat)
      modifies this
      ensures recipeStep == Pick(old(recipeStep), ing, id)
      ensures !showPicker && editingRecipeIngredient == Some(NewUsage(id, ing, old(recipeStep)))
    {
      var newRI := NewRecipeIngredient(id, 1.0, "g", ing, recipeStep.id);
      recipeStep := recipeStep.(stepIngredients := recipeStep.stepIngredients + [newRI]);
      showPicker := false;
      editingRecipeIngredient := Some(newRI);
    }

    method CancelPicker()
      modifies this
      ensures !showPicker && recipeStep == old(recipeStep)
      ensures editingRecipeIngredient == old(editingRecipeIngredient)
    {
      showPicker := false;
    }

    method TapEdit(ri: RecipeIngredient)
      modifies this
      ensures editingRecipeIngredient == Some(ri)
      ensures recipeStep == old(recipeStep) && showPicker == old(showPicker)
    {
      editingRecipeIngredient := Some(ri);
    }

    method DeleteRows(offsets: set<int>)
      requires forall i :: i in offsets ==> 0 <= i < |recipeStep.stepIngredients|
      modifies this
      ensures recipeStep == Delete(old(recipeStep), offsets)
      ensures showPicker == old(showPicker) && editingRecipeIngredient == old(editingRecipeIngredient)
    {
      recipeStep := recipeStep.(stepIngredients := Lists.RemoveOffsets(recipeStep.stepIngredients, offsets));
    }
  }
}
