/** The favourites store (`src/store/favorites.store.ts`): two persisted lists
    of ids, each toggled by membership. */
module FavoritesStore {
  import opened Seqs

  /** What a toggle leaves in `favorites`: `id` removed when present, appended
      when absent. Every other id keeps its membership. */
  function Toggled(favorites: seq<string>, id: string): (r: seq<string>)
    ensures id in r <==> id !in favorites
    ensures forall x :: x != id ==> (x in r <==> x in favorites)
    ensures id !in favorites ==> r == favorites + [id]
    ensures id in favorites ==> IsSubsequence(r, favorites) && |r| < |favorites|
  {
    if Includes(favorites, id) then
      var r := Without(favorites, id);
      assert |r| < |favorites| by {
        var k :| 0 <= k < |favorites| && favorites[k] == id;
        SubsequenceElements(r, favorites);
        SubsequenceShorter(r, favorites, k);
      }
      r
    else favorites + [id]
  }

  /** Toggling twice restores every id's membership; when `id` was absent, it
      restores the list itself. (From present, `id` comes back at the end.) */
  lemma ToggleTwice(favorites: seq<string>, id: string)
    ensures forall x :: x in Toggled(Toggled(favorites, id), id) <==> x in favorites
    ensures id !in favorites ==> Toggled(Toggled(favorites, id), id) == favorites
  {
    if id !in favorites {
      WithoutAppended(favorites, id);
    }
  }

  /** Toggles keep a list free of duplicates. */
  lemma ToggleKeepsNoDuplicates(favorites: seq<string>, id: string)
    requires NoDuplicates(favorites)
    ensures NoDuplicates(Toggled(favorites, id))
  {
    if id in favorites {
      SubsequenceNoDuplicates(Toggled(favorites, id), favorites);
    } else {
      AppendFreshNoDuplicates(favorites, id);
    }
  }

  /** The store's state: favourite project ids and favourite batch ids. */
  class Favorites {
    var favoriteProjects: seq<string>
    var favoriteBatches: seq<string>

    ghost predicate Valid()
      reads this
    {
      NoDuplicates(favoriteProjects) && NoDuplicates(favoriteBatches)
    }

    constructor()
      ensures favoriteProjects == [] && favoriteBatches == []
      ensures Valid()
    {
      favoriteProjects := [];
      favoriteBatches := [];
    }

    /** Leaves the favourite batches alone. */
    method ToggleProject(projectId: string)
      modifies this
      ensures favoriteProjects == Toggled(old(favoriteProjects), projectId)
      ensures favoriteBatches == old(favoriteBatches)
      ensures old(Valid()) ==> Valid()
    {
      if Includes(favoriteProjects, projectId) {
        favoriteProjects := Without(favoriteProjects, projectId);
      } else {
        favoriteProjects := favoriteProjects + [projectId];
      }
      if old(Valid()) {
        ToggleKeepsNoDuplicates(old(favoriteProjects), projectId);
      }
    }

    /** Leaves the favourite projects alone. */
    method ToggleBatch(batchId: string)
      modifies this
      ensures favoriteBatches == Toggled(old(favoriteBatches), batchId)
      ensures favoriteProjects == old(favoriteProjects)
      ensures old(Valid()) ==> Valid()
    {
      if Includes(favoriteBatches, batchId) {
        favoriteBatches := Without(favoriteBatches, batchId);
      } else {
        favoriteBatches := favoriteBatches + [batchId];
      }
      if old(Valid()) {
        ToggleKeepsNoDuplicates(old(favoriteBatches), batchId);
      }
    }

    function IsProjectFavorite(projectId: string): (r: bool)
      reads this
      ensures r <==> projectId in favoriteProjects
    {
      Includes(favoriteProjects, projectId)
    }

    function IsBatchFavorite(batchId: string): (r: bool)
      reads this
      ensures r <==> batchId in favoriteBatches
    {
      Includes(favoriteBatches, batchId)
    }
  }
}
