/**
 * The `LocalStorageService`: one flat array of records per kind of entity, each kept as JSON
 * under its own browser-storage key (`homebase_users`, `homebase_shops`, `homebase_listings`,
 * `homebase_rentals`, `homebase_reviews`, `homebase_favorites`, `homebase_chats`) plus the
 * signed-in user under `homebase_current_user`. Every getter reads its key and falls back to
 * the mock data when the key is absent; every `save*` reads the array, replaces the first
 * record with the same `id` or pushes the record at the end, and writes the array back.
 *
 * Browser storage is the datatype `Blobs`, one field per key, `None` when the key is absent;
 * JSON encoding is the identity on these values. A getter whose key is absent hands out the
 * mock array itself, not a copy, so a `save*` or `addChatMessage` on an absent key also
 * changes the mock data; the mock data is therefore a field of the service that those methods
 * update, and `resetData` seeds from it as it then stands.
 */
module Storage {
  import opened Wrappers
  import opened Collections
  import opened Entities

  /** The mock collections every getter falls back to and `initialize` seeds from. */
  datatype Seed = Seed(users: seq<User>, shops: seq<Shop>, listings: seq<Listing>,
                       rentals: seq<RentalRequest>, reviews: seq<Review>,
                       favorites: seq<Favorite>, chats: seq<Chat>)

  /** The contents of browser storage under each key; `None` when the key is absent. */
  datatype Blobs = Blobs(users: Option<seq<User>>, shops: Option<seq<Shop>>,
                         listings: Option<seq<Listing>>, rentals: Option<seq<RentalRequest>>,
                         reviews: Option<seq<Review>>, favorites: Option<seq<Favorite>>,
                         chats: Option<seq<Chat>>, currentUser: Option<User>)

  /** Storage with no key at all. */
  const NoKeys := Blobs(None, None, None, None, None, None, None, None)

  /** Every collection key holds a value. */
  predicate AllCollectionsPresent(b: Blobs)
  {
    b.users.Some? && b.shops.Some? && b.listings.Some? && b.rentals.Some? &&
    b.reviews.Some? && b.favorites.Some? && b.chats.Some?
  }

  /** What each collection getter returns from storage `b`: the stored array, else the mock one. */
  function Visible(b: Blobs, mock: Seed): Seed
  {
    Seed(b.users.GetOr(mock.users), b.shops.GetOr(mock.shops), b.listings.GetOr(mock.listings),
         b.rentals.GetOr(mock.rentals), b.reviews.GetOr(mock.reviews),
         b.favorites.GetOr(mock.favorites), b.chats.GetOr(mock.chats))
  }

  /**
   * What the seeding steps of `initialize` leave in storage: every collection key that is
   * missing receives its mock array. No present key is overwritten, the current-user key is
   * not touched, and no getter returns anything different afterwards.
   */
  function Seeded(b: Blobs, mock: Seed): (r: Blobs)
    ensures AllCollectionsPresent(r)
    ensures r.currentUser == b.currentUser
    ensures b.users.Some? ==> r.users == b.users
    ensures b.shops.Some? ==> r.shops == b.shops
    ensures b.listings.Some? ==> r.listings == b.listings
    ensures b.rentals.Some? ==> r.rentals == b.rentals
    ensures b.reviews.Some? ==> r.reviews == b.reviews
    ensures b.favorites.Some? ==> r.favorites == b.favorites
    ensures b.chats.Some? ==> r.chats == b.chats
    ensures Visible(r, mock) == Visible(b, mock)
  {
    Blobs(Some(b.users.GetOr(mock.users)), Some(b.shops.GetOr(mock.shops)),
          Some(b.listings.GetOr(mock.listings)), Some(b.rentals.GetOr(mock.rentals)),
          Some(b.reviews.GetOr(mock.reviews)), Some(b.favorites.GetOr(mock.favorites)),
          Some(b.chats.GetOr(mock.chats)), b.currentUser)
  }

  /** Seeding storage that has already been seeded changes nothing. */
  lemma SeededIdempotent(b: Blobs, mock: Seed)
    ensures Seeded(Seeded(b, mock), mock) == Seeded(b, mock)
  {
  }

  /**
   * The mock data after a write that took storage from `before` to `after`. A collection whose
   * key was absent was read as the mock array itself and then changed in place (`arr[i] = x`,
   * `push`) before being written, so the mock array now holds what was written under the key;
   * every other mock array is unchanged. (`initialize` writes a copy of the mock array, which
   * leaves it equal to what was written, and `filter` builds a new array, which this does not
   * describe.)
   */
  function MockAfterWrite(before: Blobs, mock: Seed, after: Blobs): (r: Seed)
    ensures AllCollectionsPresent(before) ==> r == mock
    ensures Visible(after, r) == Visible(after, mock)
    ensures before.users.None? && after.users.Some? ==> r.users == after.users.value
    ensures before.chats.None? && after.chats.Some? ==> r.chats == after.chats.value
  {
    Seed(if before.users.None? && after.users.Some? then after.users.value else mock.users,
         if before.shops.None? && after.shops.Some? then after.shops.value else mock.shops,
         if before.listings.None? && after.listings.Some? then after.listings.value
         else mock.listings,
         if before.rentals.None? && after.rentals.Some? then after.rentals.value
         else mock.rentals,
         if before.reviews.None? && after.reviews.Some? then after.reviews.value
         else mock.reviews,
         if before.favorites.None? && after.favorites.Some? then after.favorites.value
         else mock.favorites,
         if before.chats.None? && after.chats.Some? then after.chats.value else mock.chats)
  }

  // The predicates that the filtered lookups pass to `filter`.

  function HasEmail(email: string): User -> bool { (u: User) => u.email == email }
  function OwnedBy(ownerId: Id): Shop -> bool { (s: Shop) => s.ownerId == ownerId }
  function InShop(shopId: Id): Listing -> bool { (l: Listing) => l.shopId == Some(shopId) }
  function NotListing(id: Id): Listing -> bool { (l: Listing) => l.id != id }
  function RentedBy(email: string): RentalRequest -> bool { (r: RentalRequest) => r.renterEmail == email }
  function OwnedByEmail(email: string): RentalRequest -> bool { (r: RentalRequest) => r.ownerEmail == email }
  function AboutListing(listingId: Id): Review -> bool { (r: Review) => r.listingId == listingId }
  function FavoriteOf(userId: Id): Favorite -> bool { (f: Favorite) => f.userId == userId }
  function HasParticipant(userId: Id): Chat -> bool { (c: Chat) => userId in c.participants }

  /** `!(f.userId === userId && f.listingId === listingId)`. */
  function NotThisFavorite(userId: Id, listingId: Id): Favorite -> bool
  {
    (f: Favorite) => !(f.userId == userId && f.listingId == listingId)
  }

  /** The owner of the shop with id `shopId` among `shops`, if there is such a shop. */
  function ShopOwner(shops: seq<Shop>, shopId: Option<Id>): Option<Id>
  {
    if shopId.None? then None
    else
      match FindByKey(shops, ShopId, shopId.value)
      case Some(s) => Some(s.ownerId)
      case None => None
  }

  /** `shop?.ownerId === ownerId` for the shop that `l.shopId` names. */
  function ListingOfOwner(shops: seq<Shop>, ownerId: Id): Listing -> bool
  {
    (l: Listing) => ShopOwner(shops, l.shopId) == Some(ownerId)
  }

  /**
   * A chat after `addChatMessage` appended `m`: a missing `messages` array starts empty, the
   * message goes last, and the chat's last-message fields copy the message's text and time.
   */
  function WithMessage(c: Chat, m: ChatMessage): Chat
  {
    c.(messages := Some(c.messages.GetOr([]) + [m]), lastMessage := Some(m.text),
       lastMessageTime := Some(m.createdAt))
  }

  class LocalStorageService {
    /**
     * The mock data (`./mockData`), which is not part of this model beyond its shape and the
     * in-place changes the `save*` methods make to it.
     */
    var mock: Seed
    /** Browser storage, shared by every context. */
    var storage: Blobs
    /** `private initialized`. */
    var initialized: bool

    constructor (mock: Seed, storage: Blobs)
      ensures this.mock == mock && this.storage == storage && !initialized
    {
      this.mock := mock;
      this.storage := storage;
      initialized := false;
    }

    /**
     * Seeds each missing collection key with its mock array, once: a call after the first is
     * a no-op because of the `initialized` flag.
     */
    method Initialize()
      modifies this
      ensures initialized && mock == old(mock)
      ensures storage == if old(initialized) then old(storage) else Seeded(old(storage), mock)
    {
      if initialized {
        return;
      }
      if storage.users.None? {
        storage := storage.(users := Some(mock.users));
      }
      if storage.shops.None? {
        storage := storage.(shops := Some(mock.shops));
      }
      if storage.listings.None? {
        storage := storage.(listings := Some(mock.listings));
      }
      if storage.rentals.None? {
        storage := storage.(rentals := Some(mock.rentals));
      }
      if storage.reviews.None? {
        storage := storage.(reviews := Some(mock.reviews));
      }
      if storage.favorites.None? {
        storage := storage.(favorites := Some(mock.favorites));
      }
      if storage.chats.None? {
        storage := storage.(chats := Some(mock.chats));
      }
      initialized := true;
    }

    // -------------------------------------------------------------------------------------
    // Users

    function GetUsers(): (r: seq<User>)
      reads this
      ensures storage.users.Some? ==> r == storage.users.value
      ensures storage.users.None? ==> r == mock.users
      ensures r == Visible(storage, mock).users
    {
      storage.users.GetOr(mock.users)
    }

    function GetUserById(id: Id): (r: Option<User>)
      reads this
      ensures r.Some? ==> r.value in GetUsers() && r.value.id == id
      ensures r.None? <==> forall u :: u in GetUsers() ==> u.id != id
      ensures r.Some? ==>
        exists i :: 0 <= i < |GetUsers()| && GetUsers()[i] == r.value &&
          forall j :: 0 <= j < i ==> GetUsers()[j].id != id
    {
      FindByKey(GetUsers(), UserId, id)
    }

    function GetUserByEmail(email: string): (r: Option<User>)
      reads this
      ensures r.Some? ==> r.value in GetUsers() && r.value.email == email
      ensures r.None? <==> forall u :: u in GetUsers() ==> u.email != email
      ensures r.Some? ==>
        exists i :: 0 <= i < |GetUsers()| && GetUsers()[i] == r.value &&
          forall j :: 0 <= j < i ==> GetUsers()[j].email != email
    {
      Find(GetUsers(), HasEmail(email))
    }

    /** Upsert by `id`; afterwards the user is found under its id. */
    method SaveUser(user: User)
      modifies this
      ensures storage == old(storage).(users := Some(Upsert(old(GetUsers()), user, UserId)))
      ensures mock == MockAfterWrite(old(storage), old(mock), storage)
      ensures initialized == old(initialized)
      ensures GetUserById(user.id) == Some(user)
    {
      var absent := storage.users.None?;
      var users := GetUsers();
      var index := IndexOfKey(users, UserId, user.id);
      if index >= 0 {
        users := users[index := user];
      } else {
        users := users + [user];
      }
      storage := storage.(users := Some(users));
      if absent {
        // the array was the mock array itself, changed in place
        mock := mock.(users := users);
      }
      UpsertThenFind(old(GetUsers()), user, UserId);
    }

    function GetCurrentUser(): (r: Option<User>)
      reads this
      ensures r == storage.currentUser
    {
      storage.currentUser
    }

    /** Stores the user under the current-user key, or removes the key for `null`. */
    method SetCurrentUser(user: Option<User>)
      modifies this
      ensures storage == old(storage).(currentUser := user)
      ensures mock == old(mock)
      ensures initialized == old(initialized)
      ensures GetCurrentUser() == user
    {
      if user.Some? {
        storage := storage.(currentUser := user);
      } else {
        storage := storage.(currentUser := None);
      }
    }

    // -------------------------------------------------------------------------------------
    // Shops

    function GetShops(): (r: seq<Shop>)
      reads this
      ensures storage.shops.Some? ==> r == storage.shops.value
      ensures storage.shops.None? ==> r == mock.shops
      ensures r == Visible(storage, mock).shops
    {
      storage.shops.GetOr(mock.shops)
    }

    function GetShopById(id: Id): (r: Option<Shop>)
      reads this
      ensures r.Some? ==> r.value in GetShops() && r.value.id == id
      ensures r.None? <==> forall s :: s in GetShops() ==> s.id != id
      ensures r.Some? ==>
        exists i :: 0 <= i < |GetShops()| && GetShops()[i] == r.value &&
          forall j :: 0 <= j < i ==> GetShops()[j].id != id
    {
      FindByKey(GetShops(), ShopId, id)
    }

    function GetShopsByOwnerId(ownerId: Id): (r: seq<Shop>)
      reads this
      ensures forall s :: s in r <==> s in GetShops() && s.ownerId == ownerId
      ensures forall s :: multiset(r)[s] ==
                if s.ownerId == ownerId then multiset(GetShops())[s] else 0
      ensures IsSubsequence(r, GetShops())
    {
      Filter(GetShops(), OwnedBy(ownerId))
    }

    /** Upsert by `id`; afterwards the shop is found under its id. */
    method SaveShop(shop: Shop)
      modifies this
      ensures storage == old(storage).(shops := Some(Upsert(old(GetShops()), shop, ShopId)))
      ensures mock == MockAfterWrite(old(storage), old(mock), storage)
      ensures initialized == old(initialized)
      ensures GetShopById(shop.id) == Some(shop)
    {
      var absent := storage.shops.None?;
      var shops := GetShops();
      var index := IndexOfKey(shops, ShopId, shop.id);
      if index >= 0 {
        shops := shops[index := shop];
      } else {
        shops := shops + [shop];
      }
      storage := storage.(shops := Some(shops));
      if absent {
        // the array was the mock array itself, changed in place
        mock := mock.(shops := shops);
      }
      UpsertThenFind(old(GetShops()), shop, ShopId);
    }

    // -------------------------------------------------------------------------------------
    // Listings

    function GetListings(): (r: seq<Listing>)
      reads this
      ensures storage.listings.Some? ==> r == storage.listings.value
      ensures storage.listings.None? ==> r == mock.listings
      ensures r == Visible(storage, mock).listings
    {
      storage.listings.GetOr(mock.listings)
    }

    function GetListingById(id: Id): (r: Option<Listing>)
      reads this
      ensures r.Some? ==> r.value in GetListings() && r.value.id == id
      ensures r.None? <==> forall l :: l in GetListings() ==> l.id != id
      ensures r.Some? ==>
        exists i :: 0 <= i < |GetListings()| && GetListings()[i] == r.value &&
          forall j :: 0 <= j < i ==> GetListings()[j].id != id
    {
      FindByKey(GetListings(), ListingId, id)
    }

    function GetListingsByShopId(shopId: Id): (r: seq<Listing>)
      reads this
      ensures forall l :: l in r <==> l in GetListings() && l.shopId == Some(shopId)
      ensures forall l :: multiset(r)[l] ==
                if l.shopId == Some(shopId) then multiset(GetListings())[l] else 0
      ensures IsSubsequence(r, GetListings())
    {
      Filter(GetListings(), InShop(shopId))
    }

    /** The listings whose shop, looked up by the listing's `shopId`, has owner `ownerId`. */
    function GetListingsByOwnerId(ownerId: Id): (r: seq<Listing>)
      reads this
      ensures forall l :: l in r <==>
        l in GetListings() && l.shopId.Some? && GetShopById(l.shopId.value).Some? &&
        GetShopById(l.shopId.value).value.ownerId == ownerId
      ensures forall l :: multiset(r)[l] ==
                if ListingOfOwner(GetShops(), ownerId)(l) then multiset(GetListings())[l] else 0
      ensures IsSubsequence(r, GetListings())
    {
      Filter(GetListings(), ListingOfOwner(GetShops(), ownerId))
    }

    /** Upsert by `id`; afterwards the listing is found under its id. */
    method SaveListing(listing: Listing)
      modifies this
      ensures storage ==
        old(storage).(listings := Some(Upsert(old(GetListings()), listing, ListingId)))
      ensures mock == MockAfterWrite(old(storage), old(mock), storage)
      ensures initialized == old(initialized)
      ensures GetListingById(listing.id) == Some(listing)
    {
      var absent := storage.listings.None?;
      var listings := GetListings();
      var index := IndexOfKey(listings, ListingId, listing.id);
      if index >= 0 {
        listings := listings[index := listing];
      } else {
        listings := listings + [listing];
      }
      storage := storage.(listings := Some(listings));
      if absent {
        // the array was the mock array itself, changed in place
        mock := mock.(listings := listings);
      }
      UpsertThenFind(old(GetListings()), listing, ListingId);
    }

    /** Removes every listing with this id; the others keep their order. */
    method DeleteListing(id: Id)
      modifies this
      ensures storage ==
        old(storage).(listings := Some(Filter(old(GetListings()), NotListing(id))))
      ensures mock == old(mock)
      ensures initialized == old(initialized)
      ensures forall l :: l in GetListings() <==> l in old(GetListings()) && l.id != id
      ensures IsSubsequence(GetListings(), old(GetListings()))
    {
      var listings := Filter(GetListings(), NotListing(id));
      storage := storage.(listings := Some(listings));
    }

    // -------------------------------------------------------------------------------------
    // Rentals (orders and bookings)

    function GetRentals(): (r: seq<RentalRequest>)
      reads this
      ensures storage.rentals.Some? ==> r == storage.rentals.value
      ensures storage.rentals.None? ==> r == mock.rentals
      ensures r == Visible(storage, mock).rentals
    {
      storage.rentals.GetOr(mock.rentals)
    }

    function GetRentalById(id: Id): (r: Option<RentalRequest>)
      reads this
      ensures r.Some? ==> r.value in GetRentals() && r.value.id == id
      ensures r.None? <==> forall x :: x in GetRentals() ==> x.id != id
      ensures r.Some? ==>
        exists i :: 0 <= i < |GetRentals()| && GetRentals()[i] == r.value &&
          forall j :: 0 <= j < i ==> GetRentals()[j].id != id
    {
      FindByKey(GetRentals(), RentalId, id)
    }

    /** The requests whose renter is `userId`; the renter is matched by e-mail. */
    function GetRentalsByUserId(userId: string): (r: seq<RentalRequest>)
      reads this
      ensures forall x :: x in r <==> x in GetRentals() && x.renterEmail == userId
      ensures forall x :: multiset(r)[x] ==
                if x.renterEmail == userId then multiset(GetRentals())[x] else 0
      ensures IsSubsequence(r, GetRentals())
    {
      Filter(GetRentals(), RentedBy(userId))
    }

    function GetRentalsByOwner(ownerEmail: string): (r: seq<RentalRequest>)
      reads this
      ensures forall x :: x in r <==> x in GetRentals() && x.ownerEmail == ownerEmail
      ensures forall x :: multiset(r)[x] ==
                if x.ownerEmail == ownerEmail then multiset(GetRentals())[x] else 0
      ensures IsSubsequence(r, GetRentals())
    {
      Filter(GetRentals(), OwnedByEmail(ownerEmail))
    }

    /** Upsert by `id`; afterwards the request is found under its id. */
    method SaveRental(rental: RentalRequest)
      modifies this
      ensures storage ==
        old(storage).(rentals := Some(Upsert(old(GetRentals()), rental, RentalId)))
      ensures mock == MockAfterWrite(old(storage), old(mock), storage)
      ensures initialized == old(initialized)
      ensures GetRentalById(rental.id) == Some(rental)
    {
      var absent := storage.rentals.None?;
      var rentals := GetRentals();
      var index := IndexOfKey(rentals, RentalId, rental.id);
      if index >= 0 {
        rentals := rentals[index := rental];
      } else {
        rentals := rentals + [rental];
      }
      storage := storage.(rentals := Some(rentals));
      if absent {
        // the array was the mock array itself, changed in place
        mock := mock.(rentals := rentals);
      }
      UpsertThenFind(old(GetRentals()), rental, RentalId);
    }

    // -------------------------------------------------------------------------------------
    // Reviews

    function GetReviews(): (r: seq<Review>)
      reads this
      ensures storage.reviews.Some? ==> r == storage.reviews.value
      ensures storage.reviews.None? ==> r == mock.reviews
      ensures r == Visible(storage, mock).reviews
    {
      storage.reviews.GetOr(mock.reviews)
    }

    function GetReviewsByListingId(listingId: Id): (r: seq<Review>)
      reads this
      ensures forall x :: x in r <==> x in GetReviews() && x.listingId == listingId
      ensures forall x :: multiset(r)[x] ==
                if x.listingId == listingId then multiset(GetReviews())[x] else 0
      ensures IsSubsequence(r, GetReviews())
    {
      Filter(GetReviews(), AboutListing(listingId))
    }

    /** Always appends, with no check for an existing id. */
    method SaveReview(review: Review)
      modifies this
      ensures storage == old(storage).(reviews := Some(old(GetReviews()) + [review]))
      ensures mock == MockAfterWrite(old(storage), old(mock), storage)
      ensures initialized == old(initialized)
      ensures |GetReviews()| == |old(GetReviews())| + 1
    {
      var absent := storage.reviews.None?;
      var reviews := GetReviews();
      reviews := reviews + [review];
      storage := storage.(reviews := Some(reviews));
      if absent {
        // the array was the mock array itself, changed in place
        mock := mock.(reviews := reviews);
      }
    }

    // -------------------------------------------------------------------------------------
    // Favourites

    function GetFavorites(): (r: seq<Favorite>)
      reads this
      ensures storage.favorites.Some? ==> r == storage.favorites.value
      ensures storage.favorites.None? ==> r == mock.favorites
      ensures r == Visible(storage, mock).favorites
    {
      storage.favorites.GetOr(mock.favorites)
    }

    function GetFavoritesByUserId(userId: Id): (r: seq<Favorite>)
      reads this
      ensures forall f :: f in r <==> f in GetFavorites() && f.userId == userId
      ensures forall f :: multiset(r)[f] ==
                if f.userId == userId then multiset(GetFavorites())[f] else 0
      ensures IsSubsequence(r, GetFavorites())
    {
      Filter(GetFavorites(), FavoriteOf(userId))
    }

    /** Always appends, with no check for a duplicate. */
    method SaveFavorite(favorite: Favorite)
      modifies this
      ensures storage == old(storage).(favorites := Some(old(GetFavorites()) + [favorite]))
      ensures mock == MockAfterWrite(old(storage), old(mock), storage)
      ensures initialized == old(initialized)
      ensures |GetFavorites()| == |old(GetFavorites())| + 1
    {
      var absent := storage.favorites.None?;
      var favorites := GetFavorites();
      favorites := favorites + [favorite];
      storage := storage.(favorites := Some(favorites));
      if absent {
        // the array was the mock array itself, changed in place
        mock := mock.(favorites := favorites);
      }
    }

    /** Removes exactly the entries of this user for this listing; the others keep their order. */
    method RemoveFavorite(userId: Id, listingId: Id)
      modifies this
      ensures storage == old(storage).(favorites :=
        Some(Filter(old(GetFavorites()), NotThisFavorite(userId, listingId))))
      ensures mock == old(mock)
      ensures initialized == old(initialized)
      ensures forall f :: f in GetFavorites() <==>
        f in old(GetFavorites()) && !(f.userId == userId && f.listingId == listingId)
      ensures IsSubsequence(GetFavorites(), old(GetFavorites()))
    {
      var favorites := Filter(GetFavorites(), NotThisFavorite(userId, listingId));
      storage := storage.(favorites := Some(favorites));
    }

    // -------------------------------------------------------------------------------------
    // Chats

    function GetChats(): (r: seq<Chat>)
      reads this
      ensures storage.chats.Some? ==> r == storage.chats.value
      ensures storage.chats.None? ==> r == mock.chats
      ensures r == Visible(storage, mock).chats
    {
      storage.chats.GetOr(mock.chats)
    }

    function GetChatById(id: Id): (r: Option<Chat>)
      reads this
      ensures r.Some? ==> r.value in GetChats() && r.value.id == id
      ensures r.None? <==> forall c :: c in GetChats() ==> c.id != id
      ensures r.Some? ==>
        exists i :: 0 <= i < |GetChats()| && GetChats()[i] == r.value &&
          forall j :: 0 <= j < i ==> GetChats()[j].id != id
    {
      FindByKey(GetChats(), ChatId, id)
    }

    function GetChatsByParticipant(userId: Id): (r: seq<Chat>)
      reads this
      ensures forall c :: c in r <==> c in GetChats() && userId in c.participants
      ensures forall c :: multiset(r)[c] ==
                if userId in c.participants then multiset(GetChats())[c] else 0
      ensures IsSubsequence(r, GetChats())
    {
      Filter(GetChats(), HasParticipant(userId))
    }

    /** Upsert by `id`; afterwards the chat is found under its id. */
    method SaveChat(chat: Chat)
      modifies this
      ensures storage == old(storage).(chats := Some(Upsert(old(GetChats()), chat, ChatId)))
      ensures mock == MockAfterWrite(old(storage), old(mock), storage)
      ensures initialized == old(initialized)
      ensures GetChatById(chat.id) == Some(chat)
    {
      var absent := storage.chats.None?;
      var chats := GetChats();
      var index := IndexOfKey(chats, ChatId, chat.id);
      if index >= 0 {
        chats := chats[index := chat];
      } else {
        chats := chats + [chat];
      }
      storage := storage.(chats := Some(chats));
      if absent {
        // the array was the mock array itself, changed in place
        mock := mock.(chats := chats);
      }
      UpsertThenFind(old(GetChats()), chat, ChatId);
    }

    /**
     * Appends `message` to the first chat with id `chatId` and copies its text and time into
     * the chat's last-message fields; for an unknown chat id storage is left as it was.
     */
    method AddChatMessage(chatId: Id, message: ChatMessage)
      modifies this
      ensures var i := IndexOfKey(old(GetChats()), ChatId, chatId);
        storage == if i < 0 then old(storage)
                   else old(storage).(chats :=
                     Some(old(GetChats())[i := WithMessage(old(GetChats())[i], message)]))
      ensures mock == MockAfterWrite(old(storage), old(mock), storage)
      ensures initialized == old(initialized)
      ensures old(GetChatById(chatId)).Some? ==>
        GetChatById(chatId) == Some(WithMessage(old(GetChatById(chatId)).value, message))
      ensures old(GetChatById(chatId)).None? ==> storage == old(storage)
    {
      var absent := storage.chats.None?;
      var chats := GetChats();
      var index := IndexOfKey(chats, ChatId, chatId);
      if index >= 0 {
        var chat := WithMessage(chats[index], message);
        chats := chats[index := chat];
        storage := storage.(chats := Some(chats));
        if absent {
          // the array was the mock array itself, changed in place
          mock := mock.(chats := chats);
        }
        IndexOfKeyIs(chats, ChatId, chatId, index);
      }
    }

    // -------------------------------------------------------------------------------------
    // Reset

    /**
     * Removes every key, the current user's included, clears the flag and initializes again:
     * storage ends up holding exactly the mock arrays as they now stand, including whatever
     * earlier writes on absent keys put into them, and no current user.
     */
    method ResetData()
      modifies this
      ensures mock == old(mock)
      ensures initialized && storage == Seeded(NoKeys, mock)
      ensures GetCurrentUser() == None
      ensures Visible(storage, mock) == mock
    {
      storage := NoKeys;
      initialized := false;
      Initialize();
    }
  }

  /**
   * A user saved while the users key is absent outlives `resetData`: the save changed the mock
   * array in place, and the reset seeds from that array.
   */
  method SavedUserOutlivesReset(mock: Seed, user: User) returns (users: seq<User>)
    ensures user in users
    ensures forall u :: u in mock.users ==> u.id == user.id || u in users
  {
    var service := new LocalStorageService(mock, NoKeys);
    service.SaveUser(user);
    UpsertMembers(mock.users, user, UserId);
    assert service.mock.users == Upsert(mock.users, user, UserId);
    service.ResetData();
    users := service.GetUsers();
  }
}
