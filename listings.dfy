/**
 * The listings controller (`ListingsContext`): all listings, and the listings of the signed-in
 * user's shop. Every change is checked against the user: without one it throws, and a listing
 * that is not among the user's own listings cannot be updated, deleted, delisted or relisted.
 */
module Listings {
  import opened Wrappers
  import opened Collections
  import opened Entities
  import opened Storage

  /**
   * The user's listings: those of the first shop the user owns, or none when there is no user
   * or the user owns no shop.
   */
  function UserListingsOf(shops: seq<Shop>, listings: seq<Listing>, currentUser: Option<User>)
    : (r: seq<Listing>)
    ensures currentUser.None? ==> r == []
    ensures currentUser.Some? && (forall s :: s in shops ==> s.ownerId != currentUser.value.id) ==>
      r == []
    ensures currentUser.Some? && Find(shops, OwnedBy(currentUser.value.id)).Some? ==>
      var shop := Find(shops, OwnedBy(currentUser.value.id)).value;
      shop in shops && shop.ownerId == currentUser.value.id &&
      (forall l :: l in r <==> l in listings && l.shopId == Some(shop.id)) &&
      (forall l :: multiset(r)[l] == if l.shopId == Some(shop.id) then multiset(listings)[l] else 0) &&
      IsSubsequence(r, listings)
  {
    if currentUser.None? then []
    else
      var userShop := Find(shops, OwnedBy(currentUser.value.id));
      if userShop.Some? then Filter(listings, InShop(userShop.value.id)) else []
  }

  /** The patch `{ isActive: false }`. */
  const Delist := NoListingChanges.(isActive := Some(Some(false)))

  /** The patch `{ isActive: true }`. */
  const Relist := NoListingChanges.(isActive := Some(Some(true)))

  /**
   * Delisting changes only `isActive`, to false; relisting afterwards gives back the listing
   * with `isActive` true.
   */
  lemma DelistThenRelist(l: Listing)
    ensures MergeListing(l, Delist) == l.(isActive := Some(false))
    ensures MergeListing(MergeListing(l, Delist), Relist) == l.(isActive := Some(true))
  {
  }

  /** A listing as `addListing` creates it: new id, no rating or reviews yet, active. */
  function NewListing(data: Listing, newId: Id): Listing
  {
    data.(id := newId, rating := 0.0, reviews := 0, isActive := Some(true))
  }

  class ListingsContext {
    const store: LocalStorageService
    var listings: seq<Listing>
    var userListings: seq<Listing>
    var loading: bool

    constructor (store: LocalStorageService)
      ensures this.store == store && listings == [] && userListings == [] && loading
    {
      this.store := store;
      listings := [];
      userListings := [];
      loading := true;
    }

    /** The mount effect: initializes the store and shows every stored listing. */
    method LoadListings()
      modifies this, store
      ensures store.mock == old(store.mock)
      ensures store.initialized
      ensures store.storage == if old(store.initialized) then old(store.storage)
                               else Seeded(old(store.storage), store.mock)
      ensures listings == store.GetListings() && userListings == old(userListings)
      ensures !loading
    {
      store.Initialize();
      listings := store.GetListings();
      loading := false;
    }

    /** The effect that runs when the signed-in user changes. */
    method LoadUserListings(currentUser: Option<User>)
      modifies this
      ensures userListings == UserListingsOf(store.GetShops(), store.GetListings(), currentUser)
      ensures listings == old(listings) && loading == old(loading)
    {
      if currentUser.None? {
        userListings := [];
        return;
      }
      var shops := store.GetShops();
      var userShop := Find(shops, OwnedBy(currentUser.value.id));
      if userShop.Some? {
        userListings := store.GetListingsByShopId(userShop.value.id);
      } else {
        userListings := [];
      }
    }

    /**
     * Creates a listing under the generated id `newId` with rating 0, no reviews and active,
     * whatever `data` says, saves it and puts it in front of both lists. Without a user it
     * throws and changes nothing.
     */
    method AddListing(currentUser: Option<User>, data: Listing, newId: Id) returns (outcome: Outcome)
      modifies this, store
      ensures store.mock == MockAfterWrite(old(store.storage), old(store.mock), store.storage)
      ensures outcome.Fail? <==> currentUser.None?
      ensures outcome.Fail? ==>
        outcome.error == "User must be authenticated to create listings" &&
        store.storage == old(store.storage) && listings == old(listings) &&
        userListings == old(userListings)
      ensures outcome.Pass? ==>
        && store.storage == old(store.storage).(listings :=
             Some(Upsert(old(store.GetListings()), NewListing(data, newId), ListingId)))
        && listings == [NewListing(data, newId)] + old(listings)
        && userListings == [NewListing(data, newId)] + old(userListings)
        && store.GetListingById(newId) == Some(NewListing(data, newId))
      ensures outcome.Pass? && (forall l :: l in old(store.GetListings()) ==> l.id != newId) ==>
        store.GetListings() == old(store.GetListings()) + [NewListing(data, newId)]
      ensures store.initialized == old(store.initialized)
    {
      if currentUser.None? {
        return Fail("User must be authenticated to create listings");
      }
      var newListing := data.(id := newId, rating := 0.0, reviews := 0, isActive := Some(true));
      store.SaveListing(newListing);
      listings := [newListing] + listings;
      userListings := [newListing] + userListings;
      outcome := Pass;
      if forall l :: l in old(store.GetListings()) ==> l.id != newId {
        UpsertNew(old(store.GetListings()), newListing, ListingId);
      }
    }

    /**
     * Merges `updates` into the user's own listing `id`, saves the merged record and replaces
     * the entry `id` in both lists with it. Without a user, or for a listing that is not the
     * user's, it throws and changes nothing.
     */
    method UpdateListing(currentUser: Option<User>, id: Id, updates: ListingPatch)
      returns (outcome: Outcome)
      modifies this, store
      ensures store.mock == MockAfterWrite(old(store.storage), old(store.mock), store.storage)
      ensures outcome.Fail? <==> currentUser.None? || FindByKey(old(userListings), ListingId, id).None?
      ensures outcome.Fail? ==>
        outcome.error == (if currentUser.None? then "User must be authenticated to update listings"
                          else "You can only update your own listings") &&
        store.storage == old(store.storage) && listings == old(listings) &&
        userListings == old(userListings)
      ensures outcome.Pass? ==>
        var updated := MergeListing(FindByKey(old(userListings), ListingId, id).value, updates);
        && store.storage == old(store.storage).(listings :=
             Some(Upsert(old(store.GetListings()), updated, ListingId)))
        && listings == ReplaceByKey(old(listings), ListingId, id, updated)
        && userListings == ReplaceByKey(old(userListings), ListingId, id, updated)
      ensures store.initialized == old(store.initialized)
    {
      if currentUser.None? {
        return Fail("User must be authenticated to update listings");
      }
      var listingToUpdate := FindByKey(userListings, ListingId, id);
      if listingToUpdate.None? {
        return Fail("You can only update your own listings");
      }
      var updatedListing := MergeListing(listingToUpdate.value, updates);
      store.SaveListing(updatedListing);
      listings := ReplaceByKey(listings, ListingId, id, updatedListing);
      userListings := ReplaceByKey(userListings, ListingId, id, updatedListing);
      outcome := Pass;
    }

    /**
     * Deletes the user's own listing `id` from the store and from both lists; everything else
     * keeps its order. Without a user, or for a listing that is not the user's, it throws and
     * changes nothing.
     */
    method DeleteListing(currentUser: Option<User>, id: Id) returns (outcome: Outcome)
      modifies this, store
      ensures store.mock == old(store.mock)
      ensures outcome.Fail? <==> currentUser.None? || FindByKey(old(userListings), ListingId, id).None?
      ensures outcome.Fail? ==>
        outcome.error == (if currentUser.None? then "User must be authenticated to delete listings"
                          else "You can only delete your own listings") &&
        store.storage == old(store.storage) && listings == old(listings) &&
        userListings == old(userListings)
      ensures outcome.Pass? ==>
        && store.storage == old(store.storage).(listings :=
             Some(Filter(old(store.GetListings()), NotListing(id))))
        && listings == Filter(old(listings), NotListing(id))
        && userListings == Filter(old(userListings), NotListing(id))
        && (forall l :: l in listings <==> l in old(listings) && l.id != id)
        && (forall l :: l in userListings <==> l in old(userListings) && l.id != id)
      ensures store.initialized == old(store.initialized)
    {
      if currentUser.None? {
        return Fail("User must be authenticated to delete listings");
      }
      var listingToDelete := FindByKey(userListings, ListingId, id);
      if listingToDelete.None? {
        return Fail("You can only delete your own listings");
      }
      store.DeleteListing(id);
      listings := Filter(listings, NotListing(id));
      userListings := Filter(userListings, NotListing(id));
      outcome := Pass;
    }

    /**
     * `updateListing(id, { isActive: false })` after its own checks: the user's listing `id`
     * becomes inactive everywhere, with nothing else about it changed.
     */
    method DelistListing(currentUser: Option<User>, id: Id) returns (outcome: Outcome)
      modifies this, store
      ensures store.mock == MockAfterWrite(old(store.storage), old(store.mock), store.storage)
      ensures outcome.Fail? <==> currentUser.None? || FindByKey(old(userListings), ListingId, id).None?
      ensures outcome.Fail? ==>
        outcome.error == (if currentUser.None? then "User must be authenticated to delist listings"
                          else "You can only delist your own listings") &&
        store.storage == old(store.storage) && listings == old(listings) &&
        userListings == old(userListings)
      ensures outcome.Pass? ==>
        var updated := FindByKey(old(userListings), ListingId, id).value.(isActive := Some(false));
        && store.storage == old(store.storage).(listings :=
             Some(Upsert(old(store.GetListings()), updated, ListingId)))
        && listings == ReplaceByKey(old(listings), ListingId, id, updated)
        && userListings == ReplaceByKey(old(userListings), ListingId, id, updated)
      ensures store.initialized == old(store.initialized)
    {
      if currentUser.None? {
        return Fail("User must be authenticated to delist listings");
      }
      var listingToDelist := FindByKey(userListings, ListingId, id);
      if listingToDelist.None? {
        return Fail("You can only delist your own listings");
      }
      DelistThenRelist(listingToDelist.value);
      outcome := UpdateListing(currentUser, id, Delist);
    }

    /**
     * `updateListing(id, { isActive: true })` after its own checks: the user's listing `id`
     * becomes active everywhere, with nothing else about it changed.
     */
    method RelistListing(currentUser: Option<User>, id: Id) returns (outcome: Outcome)
      modifies this, store
      ensures store.mock == MockAfterWrite(old(store.storage), old(store.mock), store.storage)
      ensures outcome.Fail? <==> currentUser.None? || FindByKey(old(userListings), ListingId, id).None?
      ensures outcome.Fail? ==>
        outcome.error == (if currentUser.None? then "User must be authenticated to relist listings"
                          else "You can only relist your own listings") &&
        store.storage == old(store.storage) && listings == old(listings) &&
        userListings == old(userListings)
      ensures outcome.Pass? ==>
        var updated := FindByKey(old(userListings), ListingId, id).value.(isActive := Some(true));
        && store.storage == old(store.storage).(listings :=
             Some(Upsert(old(store.GetListings()), updated, ListingId)))
        && listings == ReplaceByKey(old(listings), ListingId, id, updated)
        && userListings == ReplaceByKey(old(userListings), ListingId, id, updated)
      ensures store.initialized == old(store.initialized)
    {
      if currentUser.None? {
        return Fail("User must be authenticated to relist listings");
      }
      var listingToRelist := FindByKey(userListings, ListingId, id);
      if listingToRelist.None? {
        return Fail("You can only relist your own listings");
      }
      outcome := UpdateListing(currentUser, id, Relist);
    }
  }
}
