/** A recipe (Culinex `Recipe`): its total duration, appending a step, and the shopping list
    that consolidates the ingredient usages of all its steps. */
module Recipes {
  import opened Wrappers
  import opened StepTimes
  import opened RecipeIngredients
  import opened RecipeSteps
  import Ordering
  import Lists

  // ---------------------------------------------------------------------------------------
  // Duration

  /** The seconds of all steps, added up. */
  function SumSeconds(steps: seq<RecipeStep>): real {
    if steps == [] then 0.0 else DurationInSeconds(steps[0].duration) + SumSeconds(steps[1..])
  }

  /** `steps.reduce(0) { total, step in total + step.duration.durationInSeconds }`. */
  function ReduceSeconds(total: real, steps: seq<RecipeStep>): real
    decreases steps
  {
    if steps == [] then total
    else ReduceSeconds(total + DurationInSeconds(steps[0].duration), steps[1..])
  }

  /** The running total of the reduction is the start value plus the sum. */
  lemma {:induction false} ReduceIsSum(total: real, steps: seq<RecipeStep>)
    ensures ReduceSeconds(total, steps) == total + SumSeconds(steps)
    decreases steps
  {
    if steps != [] {
      ReduceIsSum(total + DurationInSeconds(steps[0].duration), steps[1..]);
    }
  }

  /** Appending a step adds its seconds to the sum. */
  lemma {:induction false} SumSecondsAppend(steps: seq<RecipeStep>, s: RecipeStep)
    ensures SumSeconds(steps + [s]) == SumSeconds(steps) + DurationInSeconds(s.duration)
  {
    if steps != [] {
      assert (steps + [s])[1..] == steps[1..] + [s];
      SumSecondsAppend(steps[1..], s);
    } else {
      assert steps + [s] == [s];
    }
  }

  class Recipe {
    var name: string
    var summary: string
    var steps: seq<RecipeStep>

    /** `Recipe(name:summary:)`: a recipe starts without steps. */
    constructor (name: string, summary: string)
      ensures this.name == name && this.summary == summary && steps == []
    {
      this.name := name;
      this.summary := summary;
      steps := [];
    }

    /** `duration`: the seconds of all steps added up; 0 for a recipe without steps. */
    function Duration(): (r: real)
      reads this
      ensures r == SumSeconds(steps)
      ensures steps == [] ==> r == 0.0
    {
      ReduceIsSum(0.0, steps);
      ReduceSeconds(0.0, steps)
    }

    /** `addNewStep(description:duration:)`: appends one new step whose order is the number of
        steps before the call. `id` is the identity of the new step object. */
    method AddNewStep(id: nat, description: string, duration: StepTime)
      modifies this
      ensures steps == old(steps) + [NewStep(id, description, duration, |old(steps)|)]
      ensures name == old(name) && summary == old(summary)
      ensures Duration() == old(Duration()) + DurationInSeconds(duration)
    {
      SumSecondsAppend(steps, NewStep(id, description, duration, |steps|));
      steps := steps + [NewStep(id, description, duration, |steps|)];
    }

    /** `shoppingList`: the consolidated rows, sorted by ingredient name. */
    method ShoppingList() returns (items: seq<ShoppingListItem>)
      ensures Consolidates(items, Consolidate(FlatUsages(steps)))
      ensures Ordering.SortedByText(items, ItemName)
      ensures SumQuantities(items) == SumWithIngredient(FlatUsages(steps))
    {
      var all := FlatUsages(steps);
      var dict, keys, rows := GroupUsages(all);
      assert Keyed(dict, keys, rows);
      var values := seq(|keys|, j requires 0 <= j < |keys| => dict[keys[j]]);
      assert values == rows;
      ConsolidateIds(all);
      items := Ordering.SortByText(values, ItemName);
      SumQuantitiesPermutation(values, items);
      SortedRowsConsolidate(keys, values, items, dict);
    }
  }

  /** The loop of `shoppingList`: one row per ingredient name and unit, keyed in the order of
      first use, each adding up the quantities of its usages. */
  method GroupUsages(all: seq<RecipeIngredient>)
    returns (dict: map<string, ShoppingListItem>, keys: seq<string>, ghost rows: seq<ShoppingListItem>)
    ensures dict == Consolidate(all)
    ensures Keyed(dict, keys, rows)
    ensures SumQuantities(rows) == SumWithIngredient(all)
  {
    dict, keys, rows := map[], [], [];
    var i := 0;
    while i < |all|
      invariant 0 <= i <= |all|
      invariant dict == Consolidate(all[..i])
      invariant Keyed(dict, keys, rows)
      invariant SumQuantities(rows) == SumWithIngredient(all[..i])
    {
      var u := all[i];
      ConsolidatePrefix(all, i);
      if u.ingredient.Some? {
        var key := u.ingredient.value.name + u.unit;
        assert key == UsageKey(u);
        if key in dict {
          var existing := dict[key];
          existing := existing.(quantity := existing.quantity + u.quantity);
          assert AddUsage(dict, u) == dict[key := existing];
          ghost var j := KeyedUpdate(dict, keys, rows, key, existing);
          SumQuantitiesUpdate(rows, j, existing);
          rows := rows[j := existing];
          dict := dict[key := existing];
        } else {
          var newItem := ShoppingListItem(u.ingredient.value, u.quantity, u.unit);
          assert AddUsage(dict, u) == dict[key := newItem];
          KeyedAppend(dict, keys, rows, key, newItem);
          SumQuantitiesAppend(rows, newItem);
          rows := rows + [newItem];
          keys := keys + [key];
          dict := dict[key := newItem];
        }
      }
      i := i + 1;
    }
    assert all[..|all|] == all;
  }

  /** One more usage of the list updates the dictionary and the total as the loop body does. */
  lemma ConsolidatePrefix(all: seq<RecipeIngredient>, i: int)
    requires 0 <= i < |all|
    ensures Consolidate(all[..i + 1]) == AddUsage(Consolidate(all[..i]), all[i])
    ensures SumWithIngredient(all[..i + 1])
            == SumWithIngredient(all[..i]) + if all[i].ingredient.Some? then all[i].quantity else 0.0
  {
    assert all[..i + 1][..i] == all[..i] && all[..i + 1][i] == all[i];
  }

  /** `keys` lists each key of `dict` once, and `rows` holds the rows of those keys in that
      order. */
  ghost predicate Keyed(dict: map<string, ShoppingListItem>, keys: seq<string>, rows: seq<ShoppingListItem>) {
    && |rows| == |keys| && Lists.NoDup(keys)
    && (forall k :: k in dict <==> k in keys)
    && (forall j :: 0 <= j < |keys| ==> rows[j] == dict[keys[j]])
  }

  /** Changing the row of a key already present changes it at that key's position. */
  lemma KeyedUpdate(dict: map<string, ShoppingListItem>, keys: seq<string>, rows: seq<ShoppingListItem>,
                    key: string, x: ShoppingListItem) returns (j: nat)
    requires Keyed(dict, keys, rows) && key in dict
    ensures j < |keys| && keys[j] == key
    ensures Keyed(dict[key := x], keys, rows[j := x])
  {
    j :| 0 <= j < |keys| && keys[j] == key;
    forall m | 0 <= m < |keys| ensures rows[j := x][m] == dict[key := x][keys[m]] {
      if m != j {
        assert keys[m] != key;
      }
    }
  }

  /** A new key goes at the end, with its row. */
  lemma KeyedAppend(dict: map<string, ShoppingListItem>, keys: seq<string>, rows: seq<ShoppingListItem>,
                    key: string, x: ShoppingListItem)
    requires Keyed(dict, keys, rows) && key !in dict
    ensures Keyed(dict[key := x], keys + [key], rows + [x])
  {
    var keys', rows' := keys + [key], rows + [x];
    forall a, b | 0 <= a < b < |keys'| ensures keys'[a] != keys'[b] {
      if b == |keys| {
        assert keys'[a] == keys[a];
      }
    }
    forall m | 0 <= m < |keys'| ensures rows'[m] == dict[key := x][keys'[m]] {
      if m < |keys| {
        assert keys'[m] == keys[m] && keys[m] in dict;
      }
    }
  }

  // ---------------------------------------------------------------------------------------
  // Shopping list

  /** A row of the shopping list. */
  datatype ShoppingListItem = ShoppingListItem(ingredient: Ingredient, quantity: real, unit: string)

  /** `id`: the ingredient's name and the unit, joined without a separator. */
  function ItemId(item: ShoppingListItem): string {
    item.ingredient.name + item.unit
  }

  function ItemName(item: ShoppingListItem): string {
    item.ingredient.name
  }

  /** `formattedQuantity(using:)`: the quantity with two decimals, whatever the style. */
  function ItemFormattedQuantity(item: ShoppingListItem, style: QuantityDisplayStyle,
                                 fixed2: real -> string): (r: string)
    ensures r == fixed2(item.quantity)
  {
    fixed2(item.quantity)
  }

  lemma ItemFormatIgnoresStyle(item: ShoppingListItem, fixed2: real -> string)
    ensures ItemFormattedQuantity(item, Fraction, fixed2) == ItemFormattedQuantity(item, Decimal, fixed2)
  {
  }

  /** `steps.flatMap { $0.stepIngredients }`. */
  function FlatUsages(steps: seq<RecipeStep>): seq<RecipeIngredient> {
    if steps == [] then [] else steps[0].stepIngredients + FlatUsages(steps[1..])
  }

  /** The dictionary key of a usage that has an ingredient. */
  function UsageKey(u: RecipeIngredient): string
    requires u.ingredient.Some?
  {
    u.ingredient.value.name + u.unit
  }

  /** One pass of the loop: a usage without an ingredient is skipped; otherwise its quantity is
      added to the row with its key, or a new row is made from it. */
  function AddUsage(dict: map<string, ShoppingListItem>, u: RecipeIngredient): map<string, ShoppingListItem> {
    if u.ingredient.None? then dict
    else
      var key := UsageKey(u);
      if key in dict then dict[key := dict[key].(quantity := dict[key].quantity + u.quantity)]
      else dict[key := ShoppingListItem(u.ingredient.value, u.quantity, u.unit)]
  }

  /** The dictionary the loop builds from `us`. */
  function Consolidate(us: seq<RecipeIngredient>): map<string, ShoppingListItem> {
    if us == [] then map[] else AddUsage(Consolidate(us[..|us| - 1]), us[|us| - 1])
  }

  /** Some usage of `us` has an ingredient and key `k`. */
  predicate HasKey(us: seq<RecipeIngredient>, k: string) {
    exists j :: 0 <= j < |us| && us[j].ingredient.Some? && UsageKey(us[j]) == k
  }

  /** The sum of the quantities of the usages with an ingredient and key `k`. */
  function GroupSum(us: seq<RecipeIngredient>, k: string): real {
    if us == [] then 0.0
    else
      var u := us[|us| - 1];
      GroupSum(us[..|us| - 1], k) + (if u.ingredient.Some? && UsageKey(u) == k then u.quantity else 0.0)
  }

  function SumWithIngredient(us: seq<RecipeIngredient>): real {
    if us == [] then 0.0
    else
      var u := us[|us| - 1];
      SumWithIngredient(us[..|us| - 1]) + (if u.ingredient.Some? then u.quantity else 0.0)
  }

  function CountWithIngredient(us: seq<RecipeIngredient>): nat {
    if us == [] then 0
    else CountWithIngredient(us[..|us| - 1]) + (if us[|us| - 1].ingredient.Some? then 1 else 0)
  }

  function SumQuantities(items: seq<ShoppingListItem>): real {
    if items == [] then 0.0 else items[0].quantity + SumQuantities(items[1..])
  }

  /** Every row is filed under its own id. */
  lemma {:induction false} ConsolidateIds(us: seq<RecipeIngredient>)
    ensures forall k :: k in Consolidate(us) ==> ItemId(Consolidate(us)[k]) == k
  {
    if us != [] {
      ConsolidateIds(us[..|us| - 1]);
    }
  }

  /** A key has a row exactly when some usage with an ingredient has that key, and the row's
      quantity is the sum of that group's quantities. Usages without an ingredient count for
      nothing. */
  lemma {:induction false} ConsolidateGroups(us: seq<RecipeIngredient>, k: string)
    ensures k in Consolidate(us) <==> HasKey(us, k)
    ensures k in Consolidate(us) ==> Consolidate(us)[k].quantity == GroupSum(us, k)
    ensures k !in Consolidate(us) ==> GroupSum(us, k) == 0.0
  {
    if us != [] {
      var p := us[..|us| - 1];
      var u := us[|us| - 1];
      ConsolidateGroups(p, k);
      if HasKey(p, k) {
        var j :| 0 <= j < |p| && p[j].ingredient.Some? && UsageKey(p[j]) == k;
        assert us[j] == p[j];
      }
      if HasKey(us, k) && !(u.ingredient.Some? && UsageKey(u) == k) {
        var j :| 0 <= j < |us| && us[j].ingredient.Some? && UsageKey(us[j]) == k;
        assert j < |p| && p[j] == us[j];
      }
    }
  }

  /** A usage without an ingredient is skipped. */
  lemma UsageWithoutIngredientSkipped(us: seq<RecipeIngredient>, u: RecipeIngredient)
    requires u.ingredient.None?
    ensures Consolidate(us + [u]) == Consolidate(us)
  {
    assert (us + [u])[..|us|] == us;
  }

  /** There are at most as many rows as usages with an ingredient. */
  lemma {:induction false} ConsolidateSize(us: seq<RecipeIngredient>)
    ensures |Consolidate(us)| <= CountWithIngredient(us)
  {
    if us != [] {
      ConsolidateSize(us[..|us| - 1]);
    }
  }

  /** Two usages with ingredients share a row exactly when the joined strings agree; so
      ("Salt", "g") and ("Saltg", "") make a single row, which keeps the first usage's
      ingredient and unit and adds both quantities. */
  lemma SharedRowByJoinedString(salt: Ingredient, saltg: Ingredient, a: real, b: real)
    requires salt.name == "Salt" && saltg.name == "Saltg"
    ensures var us := [RecipeIngredient(0, a, "g", Some(salt), None),
                       RecipeIngredient(1, b, "", Some(saltg), None)];
      Consolidate(us) == map["Saltg" := ShoppingListItem(salt, a + b, "g")]
  {
    var us := [RecipeIngredient(0, a, "g", Some(salt), None),
               RecipeIngredient(1, b, "", Some(saltg), None)];
    assert UsageKey(us[0]) == "Saltg" && UsageKey(us[1]) == "Saltg";
    assert us[..1][..0] == [];
    assert Consolidate(us[..1]) == map["Saltg" := ShoppingListItem(salt, a, "g")];
    assert us[..|us| - 1] == us[..1];
  }

  lemma {:induction false} SumQuantitiesAppend(rows: seq<ShoppingListItem>, x: ShoppingListItem)
    ensures SumQuantities(rows + [x]) == SumQuantities(rows) + x.quantity
  {
    if rows != [] {
      assert (rows + [x])[1..] == rows[1..] + [x];
      SumQuantitiesAppend(rows[1..], x);
    } else {
      assert rows + [x] == [x];
    }
  }

  lemma {:induction false} SumQuantitiesUpdate(rows: seq<ShoppingListItem>, j: nat, x: ShoppingListItem)
    requires j < |rows|
    ensures SumQuantities(rows[j := x]) == SumQuantities(rows) - rows[j].quantity + x.quantity
  {
    if j > 0 {
      assert rows[j := x][1..] == rows[1..][j - 1 := x];
      SumQuantitiesUpdate(rows[1..], j - 1, x);
    }
  }

  /** The sum of the quantities does not depend on the order of the rows. */
  lemma {:induction false} SumQuantitiesPermutation(s: seq<ShoppingListItem>, r: seq<ShoppingListItem>)
    requires multiset(s) == multiset(r)
    ensures SumQuantities(s) == SumQuantities(r)
    decreases |s|
  {
    if s != [] {
      var j := Lists.MatchFirst(s, r);
      SumQuantitiesPermutation(s[1..], r[..j] + r[j + 1..]);
      SumQuantitiesRemove(r, j);
    } else {
      assert r == [];
    }
  }

  lemma {:induction false} SumQuantitiesRemove(r: seq<ShoppingListItem>, j: nat)
    requires j < |r|
    ensures SumQuantities(r) == r[j].quantity + SumQuantities(r[..j] + r[j + 1..])
  {
    if j > 0 {
      assert (r[..j] + r[j + 1..])[0] == r[0];
      assert (r[..j] + r[j + 1..])[1..] == r[1..][..j - 1] + r[1..][j..];
      SumQuantitiesRemove(r[1..], j - 1);
    } else {
      assert r[..j] + r[j + 1..] == r[1..];
    }
  }

  /** `items` lists the rows of `dict`: each once, each filed under its id. */
  ghost predicate Consolidates(items: seq<ShoppingListItem>, dict: map<string, ShoppingListItem>) {
    (forall i :: 0 <= i < |items| ==> ItemId(items[i]) in dict && dict[ItemId(items[i])] == items[i])
    && (forall k :: k in dict ==> exists i :: 0 <= i < |items| && ItemId(items[i]) == k)
    && (forall i, j :: 0 <= i < j < |items| ==> ItemId(items[i]) != ItemId(items[j]))
  }

  /** Sorting the dictionary's values, taken once per key, lists its rows. */
  lemma SortedRowsConsolidate(keys: seq<string>, values: seq<ShoppingListItem>,
                              items: seq<ShoppingListItem>, dict: map<string, ShoppingListItem>)
    requires Lists.NoDup(keys) && (forall k :: k in dict <==> k in keys)
    requires |values| == |keys| && forall j :: 0 <= j < |keys| ==> values[j] == dict[keys[j]]
    requires forall k :: k in dict ==> ItemId(dict[k]) == k
    requires multiset(items) == multiset(values)
    ensures Consolidates(items, dict)
  {
    forall i | 0 <= i < |items|
      ensures ItemId(items[i]) in dict && dict[ItemId(items[i])] == items[i]
    {
      assert items[i] in multiset(values);
      var j :| 0 <= j < |values| && values[j] == items[i];
    }
    forall k | k in dict ensures exists i :: 0 <= i < |items| && ItemId(items[i]) == k {
      var j :| 0 <= j < |keys| && keys[j] == k;
      assert values[j] in multiset(items);
      var i :| 0 <= i < |items| && items[i] == values[j];
      assert ItemId(items[i]) == k;
    }
    DistinctRowIds(keys, values, items, dict);
  }

  /** A permutation of the values, each of which is the row filed under its own identifier,
      repeats no identifier. */
  lemma DistinctRowIds(keys: seq<string>, values: seq<ShoppingListItem>,
                       items: seq<ShoppingListItem>, dict: map<string, ShoppingListItem>)
    requires Lists.NoDup(keys) && (forall k :: k in dict <==> k in keys)
    requires |values| == |keys| && forall j :: 0 <= j < |keys| ==> values[j] == dict[keys[j]]
    requires forall k :: k in dict ==> ItemId(dict[k]) == k
    requires multiset(items) == multiset(values)
    requires forall i :: 0 <= i < |items| ==> ItemId(items[i]) in dict && dict[ItemId(items[i])] == items[i]
    ensures forall i, j :: 0 <= i < j < |items| ==> ItemId(items[i]) != ItemId(items[j])
  {
    assert forall j :: 0 <= j < |keys| ==> keys[j] in dict && values[j] == dict[keys[j]];
    forall i, j | 0 <= i < j < |items| ensures ItemId(items[i]) != ItemId(items[j]) {
      if items[i] == items[j] {
        Lists.RepeatMultiplicity(items, i, j);
        ValuesOnce(keys, values, dict, items[i]);
      }
    }
  }

  /** Distinct keys name distinct rows, so each row occurs once among the values. */
  lemma ValuesOnce(keys: seq<string>, values: seq<ShoppingListItem>,
                   dict: map<string, ShoppingListItem>, x: ShoppingListItem)
    requires Lists.NoDup(keys)
    requires |values| == |keys| && forall j :: 0 <= j < |keys| ==> keys[j] in dict && values[j] == dict[keys[j]]
    requires forall k :: k in dict ==> ItemId(dict[k]) == k
    ensures multiset(values)[x] <= 1
  {
    var ids := seq(|values|, j requires 0 <= j < |values| => ItemId(values[j]));
    assert ids == keys;
    assert Lists.NoDup(values) by {
      forall i, j | 0 <= i < j < |values| ensures values[i] != values[j] {
        assert ItemId(values[i]) == keys[i] && ItemId(values[j]) == keys[j];
      }
    }
    Lists.NoDupMultiplicity(values, x);
  }
}
