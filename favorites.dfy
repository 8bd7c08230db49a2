/** Favourite collections, shared by both generations: a favourite is a named list of
    recipes, and the recipe pickers of both "new favourite" screens add the recipes chosen
    in a searchable list to the screen's list, skipping those already in it. */
module Favorites {
  import Lists

  /** A recipe as the favourite screens see it: its identity and its name. */
  datatype RecipeEntry = RecipeEntry(id: nat, name: string)

  /** `FavoriteItem(name:recipes:)`; `id` stands for the fresh UUID it receives. */
  datatype FavoriteItem = FavoriteItem(id: nat, name: string, recipes: seq<RecipeEntry>)

  function RecipeId(r: RecipeEntry): nat {
    r.id
  }

  /** The name a favourite is saved under: the text typed, or "New Favorite <n+1>" when
      nothing was typed, `n` being the number of favourites stored so far. `intText` stands
      for Swift's string interpolation of an `Int`. */
  function FavoriteName(favoriteName: string, count: nat, intText: int -> string): (r: string)
    ensures favoriteName != [] ==> r == favoriteName
    ensures favoriteName == [] ==> r == "New Favorite " + intText(count + 1)
    ensures r != []
  {
    if favoriteName == [] then "New Favorite " + intText(count + 1) else favoriteName
  }

  /** `filteredRecipes`: the whole library for an empty search, otherwise the recipes whose
      name contains the search text. `contains` stands for the localized matching. */
  function FilteredRecipes(library: seq<RecipeEntry>, searchText: string,
                           contains: (string, string) -> bool): (r: seq<RecipeEntry>)
    ensures searchText == [] ==> r == library
    ensures searchText != [] ==> forall k :: 0 <= k < |r| ==> contains(r[k].name, searchText)
    ensures forall e: RecipeEntry :: multiset(r)[e] <= multiset(library)[e]
    ensures forall e: RecipeEntry :: contains(e.name, searchText) ==> multiset(r)[e] == multiset(library)[e]
  {
    if searchText == [] then library
    else Lists.Filter(library, (e: RecipeEntry) => contains(e.name, searchText))
  }

  /** The search keeps the library's order: it works piecewise, and a single recipe is shown
      exactly when the search is empty or its name matches. */
  lemma FilteredInOrder(a: seq<RecipeEntry>, b: seq<RecipeEntry>, x: RecipeEntry, searchText: string,
                        contains: (string, string) -> bool)
    ensures FilteredRecipes(a + b, searchText, contains)
            == FilteredRecipes(a, searchText, contains) + FilteredRecipes(b, searchText, contains)
    ensures FilteredRecipes([x], searchText, contains)
            == if searchText == [] || contains(x.name, searchText) then [x] else []
  {
    if searchText != [] {
      var p := (e: RecipeEntry) => contains(e.name, searchText);
      Lists.FilterConcat(a, b, p);
      Lists.FilterSingleton(x, p);
    }
  }

  /** A list that extends another holds every identifier the other holds. */
  lemma HasIdInExtension(a: seq<RecipeEntry>, b: seq<RecipeEntry>, key: nat)
    requires |a| <= |b| && b[..|a|] == a
    requires Lists.HasId(a, RecipeId, key)
    ensures Lists.HasId(b, RecipeId, key)
  {
    var k :| 0 <= k < |a| && a[k].id == key;
    assert b[k] == a[k];
  }

  /** The "Add Selected" button: each shown recipe whose identifier is selected and that is
      not in the list yet is appended, in the order shown. */
  function AddSelected(added: seq<RecipeEntry>, filtered: seq<RecipeEntry>, selection: set<nat>)
    : seq<RecipeEntry>
    decreases |filtered|
  {
    if filtered == [] then added
    else
      var recipe := filtered[0];
      var append := recipe.id in selection && !Lists.HasId(added, RecipeId, recipe.id);
      AddSelected(if append then added + [recipe] else added, filtered[1..], selection)
  }

  /** The shown recipes "Add Selected" appends: selected, and not in the list yet. */
  function NewlySelected(added: seq<RecipeEntry>, selection: set<nat>): RecipeEntry -> bool {
    (e: RecipeEntry) => e.id in selection && !Lists.HasId(added, RecipeId, e.id)
  }

  /** With no identifier shown twice, "Add Selected" appends exactly the newly selected shown
      recipes, in the order shown. */
  lemma {:induction false} AddSelectedInFilteredOrder(added: seq<RecipeEntry>, filtered: seq<RecipeEntry>,
                                                      selection: set<nat>)
    requires Lists.NoDupIds(filtered, RecipeId)
    ensures AddSelected(added, filtered, selection) == added + Lists.Filter(filtered, NewlySelected(added, selection))
    decreases |filtered|
  {
    if filtered != [] {
      var recipe, rest := filtered[0], filtered[1..];
      var p := NewlySelected(added, selection);
      var next := if p(recipe) then added + [recipe] else added;
      NoDupIdsTail(filtered);
      AddSelectedFirst(added, filtered, selection);
      AddSelectedInFilteredOrder(next, rest, selection);
      NewlySelectedAfterPass(added, filtered, selection);
      Lists.FilterAfterPrefix(added, filtered, p);
    }
  }

  /** Dropping the first recipe keeps the identifiers distinct. */
  lemma NoDupIdsTail(s: seq<RecipeEntry>)
    requires s != [] && Lists.NoDupIds(s, RecipeId)
    ensures Lists.NoDupIds(s[1..], RecipeId)
  {
    forall i, j | 0 <= i < j < |s[1..]| ensures s[1..][i].id != s[1..][j].id {
      assert s[1..][i] == s[i + 1] && s[1..][j] == s[j + 1];
    }
  }

  /** After the loop's pass over the first shown recipe, the rest of the list is filtered as
      before, since no other shown recipe has its identifier. */
  lemma NewlySelectedAfterPass(added: seq<RecipeEntry>, filtered: seq<RecipeEntry>, selection: set<nat>)
    requires filtered != [] && Lists.NoDupIds(filtered, RecipeId)
    ensures var p := NewlySelected(added, selection);
            var next := if p(filtered[0]) then added + [filtered[0]] else added;
            Lists.Filter(filtered[1..], NewlySelected(next, selection)) == Lists.Filter(filtered[1..], p)
  {
    var recipe, rest := filtered[0], filtered[1..];
    var p := NewlySelected(added, selection);
    var next := if p(recipe) then added + [recipe] else added;
    forall k | 0 <= k < |rest| ensures NewlySelected(next, selection)(rest[k]) == p(rest[k]) {
      assert rest[k] == filtered[k + 1];
      Lists.HasIdAfterAppend(added, recipe, RecipeId, rest[k].id);
    }
    Lists.FilterAgreeing(rest, NewlySelected(next, selection), p);
  }

  /** What "Add Selected" promises: the old list is kept as a prefix, no identifier is
      repeated, every selected shown recipe ends up in the list, and every appended entry is a
      selected shown recipe that was not in the list before. */
  lemma {:induction false} AddSelectedMeetsSpec(added: seq<RecipeEntry>, filtered: seq<RecipeEntry>,
                                                selection: set<nat>)
    ensures var r := AddSelected(added, filtered, selection);
      && |added| <= |r| && r[..|added|] == added
      && (Lists.NoDupIds(added, RecipeId) ==> Lists.NoDupIds(r, RecipeId))
      && (forall k :: 0 <= k < |filtered| && filtered[k].id in selection ==>
            Lists.HasId(r, RecipeId, filtered[k].id))
      && (forall k :: |added| <= k < |r| ==>
            r[k] in filtered && r[k].id in selection && !Lists.HasId(added, RecipeId, r[k].id))
    ensures Lists.NoDupIds(filtered, RecipeId) ==>
      AddSelected(added, filtered, selection) == added + Lists.Filter(filtered, NewlySelected(added, selection))
    decreases |filtered|
  {
    if Lists.NoDupIds(filtered, RecipeId) {
      AddSelectedInFilteredOrder(added, filtered, selection);
    }
    if filtered != [] {
      var recipe := filtered[0];
      var next := if recipe.id in selection && !Lists.HasId(added, RecipeId, recipe.id)
                  then added + [recipe] else added;
      AddSelectedMeetsSpec(next, filtered[1..], selection);
      AddSelectedStep(added, filtered, selection, next, AddSelected(next, filtered[1..], selection));
    }
  }

  /** One pass of the source's loop: the first shown recipe is appended when it is selected
      and not yet in the list, and the rest of the list is handled the same way. */
  lemma AddSelectedFirst(added: seq<RecipeEntry>, filtered: seq<RecipeEntry>, selection: set<nat>)
    requires filtered != []
    ensures AddSelected(added, filtered, selection)
            == AddSelected(if filtered[0].id in selection && !Lists.HasId(added, RecipeId, filtered[0].id)
                           then added + [filtered[0]] else added, filtered[1..], selection)
  {
  }

  /** The loop of "Add Selected" at position `i`: the recipe there is appended when it is
      selected and not yet listed, and the rest of the list follows. */
  lemma AddSelectedAt(added: seq<RecipeEntry>, filtered: seq<RecipeEntry>, i: int, selection: set<nat>)
    requires 0 <= i < |filtered|
    ensures AddSelected(added, filtered[i..], selection)
            == AddSelected(if filtered[i].id in selection && !Lists.HasId(added, RecipeId, filtered[i].id)
                           then added + [filtered[i]] else added, filtered[i + 1..], selection)
  {
    assert filtered[i..][0] == filtered[i] && filtered[i..][1..] == filtered[i + 1..];
    AddSelectedFirst(added, filtered[i..], selection);
  }

  /** The induction step of `AddSelected`, for the first shown recipe. */
  lemma AddSelectedStep(added: seq<RecipeEntry>, filtered: seq<RecipeEntry>, selection: set<nat>,
                        next: seq<RecipeEntry>, r: seq<RecipeEntry>)
    requires filtered != []
    requires next == if filtered[0].id in selection && !Lists.HasId(added, RecipeId, filtered[0].id)
                     then added + [filtered[0]] else added
    requires |next| <= |r| && r[..|next|] == next
    requires Lists.NoDupIds(next, RecipeId) ==> Lists.NoDupIds(r, RecipeId)
    requires forall k :: 0 <= k < |filtered[1..]| && filtered[1..][k].id in selection ==>
      Lists.HasId(r, RecipeId, filtered[1..][k].id)
    requires forall k :: |next| <= k < |r| ==>
      r[k] in filtered[1..] && r[k].id in selection && !Lists.HasId(next, RecipeId, r[k].id)
    ensures |added| <= |r| && r[..|added|] == added
    ensures Lists.NoDupIds(added, RecipeId) ==> Lists.NoDupIds(r, RecipeId)
    ensures forall k :: 0 <= k < |filtered| && filtered[k].id in selection ==>
      Lists.HasId(r, RecipeId, filtered[k].id)
    ensures forall k :: |added| <= k < |r| ==>
      r[k] in filtered && r[k].id in selection && !Lists.HasId(added, RecipeId, r[k].id)
  {
    var recipe := filtered[0];
    assert next[..|added|] == added;
    assert r[..|added|] == added by {
      assert r[..|added|] == r[..|next|][..|added|];
    }
    if Lists.NoDupIds(added, RecipeId) && next != added {
      forall a, b | 0 <= a < b < |next| ensures next[a].id != next[b].id {
        if b == |added| { assert next[a] == added[a]; }
      }
    }
    forall k | 0 <= k < |filtered| && filtered[k].id in selection
      ensures Lists.HasId(r, RecipeId, filtered[k].id)
    {
      if k == 0 {
        if Lists.HasId(added, RecipeId, recipe.id) {
          HasIdInExtension(added, r, recipe.id);
        } else {
          assert r[|added|] == next[|added|] == recipe;
        }
      } else {
        assert filtered[k] == filtered[1..][k - 1];
      }
    }
    forall k | |added| <= k < |r|
      ensures r[k] in filtered && r[k].id in selection && !Lists.HasId(added, RecipeId, r[k].id)
    {
      if k < |next| {
        assert r[k] == next[k] == recipe;
      } else {
        if Lists.HasId(added, RecipeId, r[k].id) {
          assert next[..|added|] == added;
          HasIdInExtension(added, next, r[k].id);
        }
      }
    }
  }

  /** Picking recipes twice with the same selection adds nothing the second time. */
  lemma {:induction false} AddSelectedIdempotent(added: seq<RecipeEntry>, filtered: seq<RecipeEntry>,
                                                 selection: set<nat>)
    ensures AddSelected(AddSelected(added, filtered, selection), filtered, selection)
            == AddSelected(added, filtered, selection)
  {
    var once := AddSelected(added, filtered, selection);
    AddSelectedMeetsSpec(added, filtered, selection);
    AddSelectedKeepsCovered(once, filtered, selection);
  }

  /** When every selected shown recipe is in the list already, nothing is added. */
  lemma {:induction false} AddSelectedKeepsCovered(added: seq<RecipeEntry>, filtered: seq<RecipeEntry>,
                                                   selection: set<nat>)
    requires forall k :: 0 <= k < |filtered| && filtered[k].id in selection ==>
      Lists.HasId(added, RecipeId, filtered[k].id)
    ensures AddSelected(added, filtered, selection) == added
    decreases |filtered|
  {
    if filtered != [] {
      forall k | 0 <= k < |filtered[1..]| && filtered[1..][k].id in selection
        ensures Lists.HasId(added, RecipeId, filtered[1..][k].id)
      {
        assert filtered[1..][k] == filtered[k + 1];
      }
      AddSelectedKeepsCovered(added, filtered[1..], selection);
    }
  }
}
