/** Culinex's "New Favorite" screen (`AddFavoriteView`) and its recipe picker
    (`RecipeSelectionSheet`). The favourites stored so far are a field of the screen, and
    `insert` appends the new one to it. */
module AddFavorite {
  import Lists
  import opened Favorites

  /** The screen's state. */
  datatype Screen = Screen(
    favorites: seq<FavoriteItem>, favoriteName: string, showBottomSheet: bool,
    showAlert: bool, selectedRecipes: seq<RecipeEntry>, dismissed: bool)

  /** Save is disabled exactly while no recipe has been chosen. */
  function SaveDisabled(s: Screen): (r: bool)
    ensures r <==> |s.selectedRecipes| == 0
  {
    s.selectedRecipes == []
  }

  /** `saveNewFavorite()`: with no recipe chosen only the alert is raised; otherwise a
      favourite holding the chosen recipes, in their order, is stored under the typed name or
      "New Favorite <n+1>", and the screen closes. */
  function SaveNewFavorite(s: Screen, id: nat, intText: int -> string): (r: Screen)
    ensures s.selectedRecipes == [] ==> r == s.(showAlert := true)
    ensures s.selectedRecipes != [] ==>
      r == s.(favorites := s.favorites + [FavoriteItem(id, FavoriteName(s.favoriteName, |s.favorites|, intText),
                                                       s.selectedRecipes)],
               dismissed := true)
  {
    if s.selectedRecipes == [] then s.(showAlert := true)
    else
      var name := if s.favoriteName == [] then "New Favorite " + intText(|s.favorites| + 1)
                  else s.favoriteName;
      s.(favorites := s.favorites + [FavoriteItem(id, name, s.selectedRecipes)], dismissed := true)
  }

  /** A save either only raises the alert, or stores exactly one favourite, named and filled
      as chosen, after the ones there were. */
  lemma SaveStoresOneFavorite(s: Screen, id: nat, intText: int -> string)
    ensures var r := SaveNewFavorite(s, id, intText);
      !SaveDisabled(s) ==>
        |r.favorites| == |s.favorites| + 1 && r.favorites[..|s.favorites|] == s.favorites
        && r.favorites[|s.favorites|].recipes == s.selectedRecipes
        && r.favorites[|s.favorites|].name != [] && r.dismissed
    ensures SaveDisabled(s) ==> SaveNewFavorite(s, id, intText).favorites == s.favorites
  {
  }

  /** Saving with nothing chosen, however often, leaves the alert up and stores nothing. */
  lemma EmptySaveRaisesAlert(s: Screen, id: nat, id': nat, intText: int -> string)
    requires SaveDisabled(s)
    ensures SaveNewFavorite(SaveNewFavorite(s, id, intText), id', intText) == s.(showAlert := true)
  {
  }

  class NewFavoriteScreen {
    var favorites: seq<FavoriteItem>
    var favoriteName: string
    var showBottomSheet: bool
    var showAlert: bool
    var selectedRecipes: seq<RecipeEntry>
    var dismissed: bool

    function State(): Screen
      reads this
    {
      Screen(favorites, favoriteName, showBottomSheet, showAlert, selectedRecipes, dismissed)
    }

    constructor (favorites: seq<FavoriteItem>)
      ensures State() == Screen(favorites, "", false, false, [], false)
    {
      this.favorites := favorites;
      favoriteName := "";
      showBottomSheet := false;
      showAlert := false;
      selectedRecipes := [];
      dismissed := false;
    }

    /** The Save button; a tap while it is disabled has no effect. */
    method TapSave(id: nat, intText: int -> string)
      modifies this
      ensures SaveDisabled(old(State())) ==> State() == old(State())
      ensures !SaveDisabled(old(State())) ==> State() == SaveNewFavorite(old(State()), id, intText)
    {
      if selectedRecipes == [] {
        return;
      }
      var name := if favoriteName == [] then "New Favorite " + intText(|favorites| + 1) else favoriteName;
      favorites := favorites + [FavoriteItem(id, name, selectedRecipes)];
      dismissed := true;
    }

    method TapCancel()
      modifies this
      ensures State() == old(State()).(dismissed := true)
    {
      dismissed := true;
    }

    /** "Add Recipes" and "Add More" open the picker. */
    method TapAddRecipes()
      modifies this
      ensures State() == old(State()).(showBottomSheet := true)
    {
      showBottomSheet := true;
    }

    method DeleteRows(offsets: set<int>)
      requires forall i :: i in offsets ==> 0 <= i < |selectedRecipes|
      modifies this
      ensures State() == old(State()).(selectedRecipes := Lists.RemoveOffsets(old(selectedRecipes), offsets))
    {
      selectedRecipes := Lists.RemoveOffsets(selectedRecipes, offsets);
    }

    method MoveRows(offsets: set<int>, to: int)
      requires 0 <= to <= |selectedRecipes|
      requires forall i :: i in offsets ==> 0 <= i < |selectedRecipes|
      modifies this
      ensures State() == old(State()).(selectedRecipes := Lists.Move(old(selectedRecipes), offsets, to))
    {
      selectedRecipes := Lists.Move(selectedRecipes, offsets, to);
    }
  }

  /** The picker: its own search text and selection, and the screen whose list and sheet flag
      it is bound to. */
  class RecipeSelectionSheet {
    const recipes: seq<RecipeEntry>
    const contains: (string, string) -> bool
    const screen: NewFavoriteScreen
    var searchText: string
    var selection: set<nat>

    constructor (recipes: seq<RecipeEntry>, contains: (string, string) -> bool, screen: NewFavoriteScreen)
      ensures this.recipes == recipes && this.contains == contains && this.screen == screen
      ensures searchText == "" && selection == {}
    {
      this.recipes := recipes;
      this.contains := contains;
      this.screen := screen;
      searchText := "";
      selection := {};
    }

    /** "Add Selected". */
    method TapAddSelected()
      modifies screen
      ensures screen.selectedRecipes
              == AddSelected(old(screen.selectedRecipes), FilteredRecipes(recipes, searchText, contains), selection)
      ensures !screen.showBottomSheet
      ensures screen.favorites == old(screen.favorites) && screen.favoriteName == old(screen.favoriteName)
      ensures screen.showAlert == old(screen.showAlert) && screen.dismissed == old(screen.dismissed)
    {
      var filteredRecipes := FilteredRecipes(recipes, searchText, contains);
      var i := 0;
      while i < |filteredRecipes|
        invariant 0 <= i <= |filteredRecipes|
        invariant AddSelected(screen.selectedRecipes, filteredRecipes[i..], selection)
                  == AddSelected(old(screen.selectedRecipes), filteredRecipes, selection)
        invariant screen.favorites == old(screen.favorites) && screen.favoriteName == old(screen.favoriteName)
        invariant screen.showAlert == old(screen.showAlert) && screen.dismissed == old(screen.dismissed)
        invariant screen.showBottomSheet == old(screen.showBottomSheet)
      {
        var recipe := filteredRecipes[i];
        AddSelectedAt(screen.selectedRecipes, filteredRecipes, i, selection);
        if recipe.id in selection {
          if !Lists.HasId(screen.selectedRecipes, RecipeId, recipe.id) {
            screen.selectedRecipes := screen.selectedRecipes + [recipe];
          }
        }
        i := i + 1;
      }
      screen.showBottomSheet := false;
    }
  }
}
