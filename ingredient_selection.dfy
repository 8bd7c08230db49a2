/** Culinex's `ExisitingIngredientView`: a searchable list of the stored ingredients in which
    a tap selects or deselects an ingredient, matched by identifier. */
module IngredientSelection {
  import Lists
  import opened RecipeIngredients

  function IngredientId(i: Ingredient): nat {
    i.id
  }

  /** `filteredIngredients`: every ingredient for an empty search, otherwise those whose name
      contains the search text. `contains` stands for `localizedCaseInsensitiveContains`. */
  function Filtered(ingredients: seq<Ingredient>, searchText: string,
                    contains: (string, string) -> bool): (r: seq<Ingredient>)
    ensures searchText == [] ==> r == ingredients
    ensures searchText != [] ==> forall k :: 0 <= k < |r| ==> contains(r[k].name, searchText)
    ensures forall i: Ingredient :: multiset(r)[i] <= multiset(ingredients)[i]
    ensures forall i: Ingredient :: contains(i.name, searchText) ==> multiset(r)[i] == multiset(ingredients)[i]
  {
    if searchText == [] then ingredients
    else Lists.Filter(ingredients, (i: Ingredient) => contains(i.name, searchText))
  }

  /** The search keeps the stored order: it works piecewise, and a single ingredient is
      shown exactly when the search is empty or its name matches. */
  lemma FilteredInOrder(a: seq<Ingredient>, b: seq<Ingredient>, x: Ingredient, searchText: string,
                        contains: (string, string) -> bool)
    ensures Filtered(a + b, searchText, contains)
            == Filtered(a, searchText, contains) + Filtered(b, searchText, contains)
    ensures Filtered([x], searchText, contains)
            == if searchText == [] || contains(x.name, searchText) then [x] else []
  {
    if searchText != [] {
      var p := (i: Ingredient) => contains(i.name, searchText);
      Lists.FilterConcat(a, b, p);
      Lists.FilterSingleton(x, p);
    }
  }

  /** The checkmark and the green outline of a row. */
  predicate IsChecked(selected: seq<Ingredient>, ingredient: Ingredient) {
    Lists.HasId(selected, IngredientId, ingredient.id)
  }

  /** The tap handler of a row. */
  function Tap(selected: seq<Ingredient>, ingredient: Ingredient): (r: seq<Ingredient>)
    ensures Lists.NoDupIds(selected, IngredientId) ==> Lists.NoDupIds(r, IngredientId)
    ensures !IsChecked(selected, ingredient) ==> r == selected + [ingredient]
    ensures IsChecked(selected, ingredient) ==> |r| == |selected| - 1
  {
    Lists.Toggle(selected, ingredient, IngredientId)
  }

  /** A tap flips the checkmark of the tapped row and of no other. */
  lemma TapFlipsOnlyThatRow(selected: seq<Ingredient>, ingredient: Ingredient, other: Ingredient)
    requires Lists.NoDupIds(selected, IngredientId)
    ensures IsChecked(Tap(selected, ingredient), ingredient) <==> !IsChecked(selected, ingredient)
    ensures other.id != ingredient.id ==>
      (IsChecked(Tap(selected, ingredient), other) <==> IsChecked(selected, other))
  {
    if other.id != ingredient.id {
      Lists.ToggleKeepsOtherIds(selected, ingredient, IngredientId, other.id);
    }
  }

  /** Selecting and then deselecting an ingredient gives the selection back. */
  lemma TapTwiceRestores(selected: seq<Ingredient>, ingredient: Ingredient)
    requires !IsChecked(selected, ingredient)
    ensures Tap(Tap(selected, ingredient), ingredient) == selected
  {
    Lists.ToggleTwice(selected, ingredient, IngredientId);
  }

  class IngredientPicker {
    const ingredients: seq<Ingredient>
    var selectedIngredients: seq<Ingredient>
    var searchText: string

    constructor (ingredients: seq<Ingredient>, selectedIngredients: seq<Ingredient>)
      ensures this.ingredients == ingredients
      ensures this.selectedIngredients == selectedIngredients && searchText == ""
    {
      this.ingredients := ingredients;
      this.selectedIngredients := selectedIngredients;
      searchText := "";
    }

    method TapRow(ingredient: Ingredient)
      modifies this
      ensures selectedIngredients == Tap(old(selectedIngredients), ingredient)
      ensures searchText == old(searchText)
    {
      match Lists.FirstIndex(selectedIngredients, IngredientId, ingredient.id)
      case Some(index) =>
        selectedIngredients := selectedIngredients[..index] + selectedIngredients[index + 1..];
      case None =>
        selectedIngredients := selectedIngredients + [ingredient];
    }

    method Search(text: string)
      modifies this
      ensures searchText == text && selectedIngredients == old(selectedIngredients)
    {
      searchText := text;
    }
  }
}
