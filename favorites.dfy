/**
 * The favourites controller (`FavoritesContext`): the signed-in user's favourites, each shown
 * with the listing it refers to, and adding, removing and toggling a favourite.
 */
module Favorites {
  import opened Wrappers
  import opened Collections
  import opened Entities
  import opened Storage

  /** A favourite together with the listing it names, `undefined` when there is none. */
  datatype FavoriteWithListing = FavoriteWithListing(id: Option<Id>, userId: Id, listingId: Id,
                                                     listing: Option<Listing>)

  /** `{ ...fav, listing }`. */
  function WithListing(fav: Favorite, listing: Option<Listing>): FavoriteWithListing
  {
    FavoriteWithListing(fav.id, fav.userId, fav.listingId, listing)
  }

  /**
   * The load-time enrichment: each favourite, in order, with its own fields unchanged and the
   * first listing whose id is its `listingId`, or none when no listing has that id.
   */
  function Enrich(favs: seq<Favorite>, listings: seq<Listing>): (r: seq<FavoriteWithListing>)
    ensures |r| == |favs|
    ensures forall i :: 0 <= i < |favs| ==>
      r[i].id == favs[i].id && r[i].userId == favs[i].userId && r[i].listingId == favs[i].listingId
    ensures forall i :: 0 <= i < |favs| ==>
      (r[i].listing.Some? ==> r[i].listing.value in listings &&
                              r[i].listing.value.id == favs[i].listingId) &&
      (r[i].listing.None? <==> forall l :: l in listings ==> l.id != favs[i].listingId)
    ensures forall i :: 0 <= i < |favs| && r[i].listing.Some? ==>
      exists k :: 0 <= k < |listings| && listings[k] == r[i].listing.value &&
        forall j :: 0 <= j < k ==> listings[j].id != favs[i].listingId
  {
    if favs == [] then []
    else [WithListing(favs[0], FindByKey(listings, ListingId, favs[0].listingId))] +
         Enrich(favs[1..], listings)
  }

  /** `f => f.listingId === listingId`. */
  function IsFor(listingId: Id): FavoriteWithListing -> bool
  {
    (f: FavoriteWithListing) => f.listingId == listingId
  }

  /** `f => f.listingId !== listingId`. */
  function IsNotFor(listingId: Id): FavoriteWithListing -> bool
  {
    (f: FavoriteWithListing) => f.listingId != listingId
  }

  class FavoritesContext {
    const store: LocalStorageService
    var favorites: seq<FavoriteWithListing>
    var loading: bool

    constructor (store: LocalStorageService)
      ensures this.store == store && favorites == [] && loading
    {
      this.store := store;
      favorites := [];
      loading := true;
    }

    /**
     * The loading effect: initializes the store; with no user there are no favourites,
     * otherwise the user's stored favourites, each with its listing.
     */
    method Load(currentUser: Option<User>)
      modifies this, store
      ensures store.mock == old(store.mock)
      ensures store.initialized
      ensures store.storage == if old(store.initialized) then old(store.storage)
                               else Seeded(old(store.storage), store.mock)
      ensures currentUser.None? ==> favorites == []
      ensures currentUser.Some? ==>
        favorites == Enrich(store.GetFavoritesByUserId(currentUser.value.id), store.GetListings())
      ensures !loading
    {
      store.Initialize();
      if currentUser.None? {
        favorites := [];
        loading := false;
        return;
      }
      var userFavorites := store.GetFavoritesByUserId(currentUser.value.id);
      var listings := store.GetListings();
      favorites := Enrich(userFavorites, listings);
      loading := false;
    }

    /** Some favourite in the view names the listing. */
    function IsFavorited(listingId: Id): (b: bool)
      reads this
      ensures b <==> exists f :: f in favorites && f.listingId == listingId
    {
      var b := Any(favorites, IsFor(listingId));
      assert b ==> exists f :: f in favorites && f.listingId == listingId by {
        if b {
          var i :| 0 <= i < |favorites| && IsFor(listingId)(favorites[i]);
          assert favorites[i] in favorites;
        }
      }
      b
    }

    /**
     * Appends a favourite with the generated id `newId` for the user and the listing to the
     * store, with no duplicate check, and appends it with its listing to the view. Without a
     * user it throws and changes nothing.
     */
    method AddFavorite(currentUser: Option<User>, listingId: Id, newId: Id) returns (outcome: Outcome)
      modifies this, store
      ensures store.mock == MockAfterWrite(old(store.storage), old(store.mock), store.storage)
      ensures outcome.Fail? <==> currentUser.None?
      ensures outcome.Fail? ==>
        outcome.error == "User must be authenticated" && store.storage == old(store.storage) &&
        favorites == old(favorites)
      ensures outcome.Pass? ==>
        var favorite := Favorite(Some(newId), currentUser.value.id, listingId);
        && store.storage == old(store.storage).(favorites :=
             Some(old(store.GetFavorites()) + [favorite]))
        && favorites == old(favorites) + [WithListing(favorite, old(store.GetListingById(listingId)))]
        && IsFavorited(listingId)
      ensures store.initialized == old(store.initialized)
    {
      if currentUser.None? {
        return Fail("User must be authenticated");
      }
      var favorite := Favorite(Some(newId), currentUser.value.id, listingId);
      store.SaveFavorite(favorite);
      var listing := store.GetListingById(listingId);
      favorites := favorites + [WithListing(favorite, listing)];
      assert favorites[|favorites| - 1].listingId == listingId;
      outcome := Pass;
    }

    /**
     * Removes the user's favourites of the listing from the store and every favourite of the
     * listing from the view, which keeps the rest in order; afterwards the listing is not a
     * favourite. Without a user it throws and changes nothing.
     */
    method RemoveFavorite(currentUser: Option<User>, listingId: Id) returns (outcome: Outcome)
      modifies this, store
      ensures store.mock == old(store.mock)
      ensures outcome.Fail? <==> currentUser.None?
      ensures outcome.Fail? ==>
        outcome.error == "User must be authenticated" && store.storage == old(store.storage) &&
        favorites == old(favorites)
      ensures outcome.Pass? ==>
        && store.storage == old(store.storage).(favorites :=
             Some(Filter(old(store.GetFavorites()), NotThisFavorite(currentUser.value.id, listingId))))
        && favorites == Filter(old(favorites), IsNotFor(listingId))
        && !IsFavorited(listingId)
      ensures store.initialized == old(store.initialized)
    {
      if currentUser.None? {
        return Fail("User must be authenticated");
      }
      store.RemoveFavorite(currentUser.value.id, listingId);
      favorites := Filter(favorites, IsNotFor(listingId));
      outcome := Pass;
    }

    /**
     * Removes the favourite if the listing is one, adds it otherwise: on success the listing's
     * favourite status is flipped. Without a user it throws and changes nothing.
     */
    method ToggleFavorite(currentUser: Option<User>, listingId: Id, newId: Id) returns (outcome: Outcome)
      modifies this, store
      ensures store.mock == if old(IsFavorited(listingId)) then old(store.mock)
                            else MockAfterWrite(old(store.storage), old(store.mock), store.storage)
      ensures outcome.Fail? <==> currentUser.None?
      ensures outcome.Fail? ==>
        outcome.error == "User must be authenticated" && store.storage == old(store.storage) &&
        favorites == old(favorites)
      ensures outcome.Pass? && old(IsFavorited(listingId)) ==>
        && store.storage == old(store.storage).(favorites :=
             Some(Filter(old(store.GetFavorites()), NotThisFavorite(currentUser.value.id, listingId))))
        && favorites == Filter(old(favorites), IsNotFor(listingId))
      ensures outcome.Pass? && !old(IsFavorited(listingId)) ==>
        var favorite := Favorite(Some(newId), currentUser.value.id, listingId);
        && store.storage == old(store.storage).(favorites :=
             Some(old(store.GetFavorites()) + [favorite]))
        && favorites == old(favorites) + [WithListing(favorite, old(store.GetListingById(listingId)))]
      ensures outcome.Pass? ==> IsFavorited(listingId) == !old(IsFavorited(listingId))
      ensures store.initialized == old(store.initialized)
    {
      if IsFavorited(listingId) {
        outcome := RemoveFavorite(currentUser, listingId);
      } else {
        outcome := AddFavorite(currentUser, listingId, newId);
      }
    }
  }
}
