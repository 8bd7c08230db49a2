/** iCooking's "New favorite" screen (`AddFavoriteView`) and its library picker
    (`BottomSheetView`). Unlike Culinex, Save is never disabled, an empty list toggles the
    alert flag instead of setting it, and the generated name is written back into the name
    field. */
module LegacyAddFavorite {
  import Lists
  import opened Favorites

  datatype Screen = Screen(
    favorites: seq<FavoriteItem>, addedRecipes: seq<RecipeEntry>, favoriteName: string,
    isPresentSheet: bool, showAlert: bool, isPresented: bool)

  /** The Save button. */
  function Save(s: Screen, id: nat, intText: int -> string): (r: Screen)
    ensures s.addedRecipes == [] ==> r == s.(showAlert := !s.showAlert)
    ensures s.addedRecipes != [] ==>
      r == s.(favoriteName := FavoriteName(s.favoriteName, |s.favorites|, intText),
              favorites := s.favorites + [FavoriteItem(id, r.favoriteName, s.addedRecipes)],
              isPresented := false)
  {
    if s.addedRecipes != [] then
      var name := if s.favoriteName == [] then "New Favorite " + intText(|s.favorites| + 1)
                  else s.favoriteName;
      s.(favoriteName := name,
         favorites := s.favorites + [FavoriteItem(id, name, s.addedRecipes)],
         isPresented := false)
    else s.(showAlert := !s.showAlert)
  }

  /** A tap on Save with an empty list twice puts the alert flag back where it was. */
  lemma EmptySaveTwiceRestoresAlert(s: Screen, id: nat, id': nat, intText: int -> string)
    requires s.addedRecipes == []
    ensures Save(Save(s, id, intText), id', intText) == s
    ensures Save(s, id, intText).showAlert != s.showAlert
  {
  }

  /** A successful save stores exactly one favourite, named as the name field now shows, and
      holding the list in its order. */
  lemma SaveStoresOneFavorite(s: Screen, id: nat, intText: int -> string)
    requires s.addedRecipes != []
    ensures var r := Save(s, id, intText);
      |r.favorites| == |s.favorites| + 1 && r.favorites[..|s.favorites|] == s.favorites
      && r.favorites[|s.favorites|].name == r.favoriteName != []
      && r.favorites[|s.favorites|].recipes == s.addedRecipes && !r.isPresented
  {
  }

  class NewFavoriteView {
    var favorites: seq<FavoriteItem>
    var addedRecipes: seq<RecipeEntry>
    var favoriteName: string
    var isPresentSheet: bool
    var showAlert: bool
    var isPresented: bool

    function State(): Screen
      reads this
    {
      Screen(favorites, addedRecipes, favoriteName, isPresentSheet, showAlert, isPresented)
    }

    constructor (favorites: seq<FavoriteItem>)
      ensures State() == Screen(favorites, [], "", false, false, true)
    {
      this.favorites := favorites;
      addedRecipes := [];
      favoriteName := "";
      isPresentSheet := false;
      showAlert := false;
      isPresented := true;
    }

    method TapSave(id: nat, intText: int -> string)
      modifies this
      ensures State() == Save(old(State()), id, intText)
    {
      if addedRecipes != [] {
        if favoriteName == [] {
          favoriteName := "New Favorite " + intText(|favorites| + 1);
        }
        favorites := favorites + [FavoriteItem(id, favoriteName, addedRecipes)];
        isPresented := false;
      } else {
        showAlert := !showAlert;
      }
    }

    method TapCancel()
      modifies this
      ensures State() == old(State()).(isPresented := !old(isPresented))
    {
      isPresented := !isPresented;
    }

    method TapAddRecipe()
      modifies this
      ensures State() == old(State()).(isPresentSheet := true)
    {
      isPresentSheet := true;
    }

    method DeleteRows(offsets: set<int>)
      requires forall i :: i in offsets ==> 0 <= i < |addedRecipes|
      modifies this
      ensures State() == old(State()).(addedRecipes := Lists.RemoveOffsets(old(addedRecipes), offsets))
    {
      addedRecipes := Lists.RemoveOffsets(addedRecipes, offsets);
    }

    method MoveRows(offsets: set<int>, to: int)
      requires 0 <= to <= |addedRecipes|
      requires forall i :: i in offsets ==> 0 <= i < |addedRecipes|
      modifies this
      ensures State() == old(State()).(addedRecipes := Lists.Move(old(addedRecipes), offsets, to))
    {
      addedRecipes := Lists.Move(addedRecipes, offsets, to);
    }
  }

  class BottomSheet {
    const recipesLibrary: seq<RecipeEntry>
    const contains: (string, string) -> bool
    const screen: NewFavoriteView
    var searchQuery: string
    var selectedRecipes: set<nat>

    constructor (recipesLibrary: seq<RecipeEntry>, contains: (string, string) -> bool,
                 screen: NewFavoriteView)
      ensures this.recipesLibrary == recipesLibrary && this.contains == contains
      ensures this.screen == screen && searchQuery == "" && selectedRecipes == {}
    {
      this.recipesLibrary := recipesLibrary;
      this.contains := contains;
      this.screen := screen;
      searchQuery := "";
      selectedRecipes := {};
    }

    /** "Add Selected Recipes". */
    method TapAddSelectedRecipes()
      modifies screen
      ensures screen.addedRecipes
              == AddSelected(old(screen.addedRecipes), FilteredRecipes(recipesLibrary, searchQuery, contains),
                             selectedRecipes)
      ensures !screen.isPresentSheet
      ensures screen.favorites == old(screen.favorites) && screen.favoriteName == old(screen.favoriteName)
      ensures screen.showAlert == old(screen.showAlert) && screen.isPresented == old(screen.isPresented)
    {
      var filteredRecipes := FilteredRecipes(recipesLibrary, searchQuery, contains);
      var i := 0;
      while i < |filteredRecipes|
        invariant 0 <= i <= |filteredRecipes|
        invariant AddSelected(screen.addedRecipes, filteredRecipes[i..], selectedRecipes)
                  == AddSelected(old(screen.addedRecipes), filteredRecipes, selectedRecipes)
        invariant screen.favorites == old(screen.favorites) && screen.favoriteName == old(screen.favoriteName)
        invariant screen.showAlert == old(screen.showAlert) && screen.isPresented == old(screen.isPresented)
        invariant screen.isPresentSheet == old(screen.isPresentSheet)
      {
        var recipe := filteredRecipes[i];
        AddSelectedAt(screen.addedRecipes, filteredRecipes, i, selectedRecipes);
        if recipe.id in selectedRecipes {
          if !Lists.HasId(screen.addedRecipes, RecipeId, recipe.id) {
            screen.addedRecipes := screen.addedRecipes + [recipe];
          }
        }
        i := i + 1;
      }
      screen.isPresentSheet := false;
    }
  }
}
