/** iCooking's `FavoriteViewModel`: an observable list of favourites with add, delete and
    move. */
module FavoritesViewModel {
  import Lists
  import opened Favorites

  class FavoriteViewModel {
    var favorites: seq<FavoriteItem>

    constructor ()
      ensures favorites == []
    {
      favorites := [];
    }

    /** `addFavorite(name:recipes:)`; `id` stands for the new item's fresh UUID. */
    method AddFavorite(name: string, recipes: seq<RecipeEntry>, id: nat)
      modifies this
      ensures favorites == old(favorites) + [FavoriteItem(id, name, recipes)]
    {
      favorites := favorites + [FavoriteItem(id, name, recipes)];
    }

    /** `deleteFavorite(at:)`. */
    method DeleteFavorite(offsets: set<int>)
      requires forall i :: i in offsets ==> 0 <= i < |favorites|
      modifies this
      ensures favorites == Lists.RemoveOffsets(old(favorites), offsets)
      ensures |favorites| == |old(favorites)| - |offsets|
    {
      favorites := Lists.RemoveOffsets(favorites, offsets);
    }

    /** `moveFavorite(from:to:)`. */
    method MoveFavorite(offsets: set<int>, to: int)
      requires 0 <= to <= |favorites|
      requires forall i :: i in offsets ==> 0 <= i < |favorites|
      modifies this
      ensures favorites == Lists.Move(old(favorites), offsets, to)
      ensures multiset(favorites) == multiset(old(favorites))
    {
      favorites := Lists.Move(favorites, offsets, to);
    }
  }
}
