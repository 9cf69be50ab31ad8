# HomeBase data layer in Dafny

HomeBase is a marketplace for home businesses. Users open shops, list products and services,
request rentals, keep favourites and chat. It runs entirely in the browser. This project models
its data layer and the decision logic of its pages:

- **The `localStorage` service.** It has one collection of records per entity kind (users,
  shops, listings, rentals, reviews, favourites, chats), plus the signed-in user. It is seeded
  from mock data on first use. `save*` is an upsert by id; the other operations are filtered
  lookups, deletions, appends and chat-message pushes. A getter whose key is absent returns the
  mock array itself, so a write on an absent key also changes the mock data that a later
  reset seeds from; the model keeps the mock data as a field and states that change.
- **The five React contexts.** These are rentals, listings, favourites, chat and authentication.
  Each one keeps view lists in sync with the store and refuses unauthenticated or non-owner
  calls with the source's error messages.
- **The pure or step-by-step logic of seven pages:**
  - the availability calendar;
  - the orders page (status filters and action buttons);
  - the shop front (opening hours, product and service split);
  - the home page (dashboard counts, sums, carousel, featured slices);
  - the analytics dashboard (metrics, top products, recommendation rules);
  - the two shop editors (form handlers, shop submission, listing creation).

Modules follow the source files:

- `Storage`: `src/services/localStorageService.ts`.
- `Rentals`, `Listings`, `Favorites`, `Chats` and `Auth`: the contexts.
- `Calendar`, `Orders`, `ShopFront`, `Home`, `Analytics`, `ShopPage` and `ShopPageNew`: the
  components.
- Shared modules:
  - `Wrappers` (`Option`, `Result`, `Outcome`);
  - `Entities` (the record types);
  - `Collections` (the JavaScript array operations the code uses, with their laws);
  - `Clock` ("HH:MM" parsing and comparison).

Objects whose state the source updates in place are classes:

- the storage service;
- each context, with its view lists as `seq` fields and a reference to the store;
- the calendar's slot editor, the carousel and the two shop editors.

Their methods state the whole new state in terms of the old one. Every `throw` becomes a
`Fail`/`Err` result carrying the source's message, and the method's contract says that nothing
changed in that case.

Other conventions:

- **Dates** are integer day numbers; clock times are "HH:MM" strings, as in the source.
- **Money and ratings** are exact `real`s.
- **Ids from `generateId`** are a parameter `newId`. The results that depend on the id being
  fresh are stated under that hypothesis.
- **The current user** (from the authentication context) is a parameter of the other contexts'
  methods.
- **The shop service's answer** is a parameter: the shop service (`ShopContext`, backed by a
  remote service) is not part of this model.

## Model

| member | source | states |
|---|---|---|
| Storage.Seeded | src/services/localStorageService.ts:27-53 | Seeding fills exactly the missing collections with the mock data. Present collections and the current user are kept, so what a reader sees is unchanged. |
| Storage.SeededIdempotent | src/services/localStorageService.ts:27-53 | Seeding twice is the same as seeding once. |
| Storage.MockAfterWrite | src/services/localStorageService.ts:56-59 | After a write, each mock array whose key was absent and is now present holds what was written, because the getter handed out the mock array itself. Every other mock array is unchanged. The change is invisible to the getters while the key stays present, and a write to storage with every key present leaves the mock data as it was. |
| Storage.LocalStorageService.constructor | src/services/localStorageService.ts:23-24 | A new service holds the given storage and is not initialized. |
| Storage.LocalStorageService.Initialize | src/services/localStorageService.ts:27-53 | The first call seeds the missing collections and sets the flag. A later call changes nothing. |
| Storage.LocalStorageService.GetUsers | src/services/localStorageService.ts:56-59 | The stored users when the key is present, otherwise the mock users; the users part of `Visible`. |
| Storage.LocalStorageService.GetUserById | src/services/localStorageService.ts:61-63 | Returns the first stored user with that id. Returns none iff no stored user has it. |
| Storage.LocalStorageService.GetUserByEmail | src/services/localStorageService.ts:65-67 | Returns the first stored user with that email. Returns none iff no stored user has it. |
| Storage.LocalStorageService.SaveUser | src/services/localStorageService.ts:69-78 | Upserts the user by id, changing only the user collection. Afterwards, lookup by id returns it. On an absent key the mock array becomes the written one (`MockAfterWrite`). |
| Storage.LocalStorageService.SetCurrentUser | src/services/localStorageService.ts:85-91 | Sets or clears the current-user slot, changing nothing else. Reading it back gives the value. The mock data is unchanged. |
| Storage.LocalStorageService.GetCurrentUser | src/services/localStorageService.ts:80-83 | The stored current user, and none when the key is absent: unlike the collections there is no mock fallback. `SetCurrentUser` is its partner. |
| Storage.LocalStorageService.GetShops | src/services/localStorageService.ts:94-97 | The stored shops when the key is present, otherwise the mock shops; the shops part of `Visible`. |
| Storage.LocalStorageService.GetShopById | src/services/localStorageService.ts:99-101 | Returns the first stored shop with that id. Returns none iff no stored shop has it. |
| Storage.LocalStorageService.GetShopsByOwnerId | src/services/localStorageService.ts:103-105 | Returns exactly the stored shops with that owner, in stored order, each with its stored multiplicity. |
| Storage.LocalStorageService.SaveShop | src/services/localStorageService.ts:107-116 | Upserts the shop by id, changing only the shop collection. Afterwards, lookup by id returns it. On an absent key the mock array becomes the written one (`MockAfterWrite`). |
| Storage.LocalStorageService.GetListings | src/services/localStorageService.ts:119-122 | The stored listings when the key is present, otherwise the mock listings; the listings part of `Visible`. |
| Storage.LocalStorageService.GetListingById | src/services/localStorageService.ts:124-126 | Returns the first stored listing with that id. Returns none iff no stored listing has it. |
| Storage.LocalStorageService.GetListingsByShopId | src/services/localStorageService.ts:128-130 | Returns exactly the listings of that shop, in stored order, each with its stored multiplicity. |
| Storage.LocalStorageService.GetListingsByOwnerId | src/services/localStorageService.ts:132-137 | Returns exactly the listings whose shop, looked up by `shopId`, has that owner, in stored order, each with its stored multiplicity. |
| Storage.LocalStorageService.SaveListing | src/services/localStorageService.ts:139-148 | Upserts the listing by id. Afterwards, lookup by id returns it. On an absent key the mock array becomes the written one (`MockAfterWrite`). |
| Storage.LocalStorageService.DeleteListing | src/services/localStorageService.ts:150-153 | Removes every listing with that id and keeps all others in order. The mock data is unchanged. |
| Storage.LocalStorageService.GetRentals | src/services/localStorageService.ts:156-159 | The stored rentals when the key is present, otherwise the mock rentals; the rentals part of `Visible`. |
| Storage.LocalStorageService.GetRentalById | src/services/localStorageService.ts:161-163 | Returns the first stored rental with that id. Returns none iff no stored rental has it. |
| Storage.LocalStorageService.GetRentalsByUserId | src/services/localStorageService.ts:165-167 | Returns exactly the rentals whose renter email matches, in stored order, each with its stored multiplicity. |
| Storage.LocalStorageService.GetRentalsByOwner | src/services/localStorageService.ts:169-171 | Returns exactly the rentals whose owner email matches, in stored order, each with its stored multiplicity. |
| Storage.LocalStorageService.SaveRental | src/services/localStorageService.ts:173-182 | Upserts the rental by id. Afterwards, lookup by id returns it. On an absent key the mock array becomes the written one (`MockAfterWrite`). |
| Storage.LocalStorageService.GetReviews | src/services/localStorageService.ts:185-188 | The stored reviews when the key is present, otherwise the mock reviews; the reviews part of `Visible`. |
| Storage.LocalStorageService.GetReviewsByListingId | src/services/localStorageService.ts:190-192 | Returns exactly the reviews of that listing, in stored order, each with its stored multiplicity. |
| Storage.LocalStorageService.SaveReview | src/services/localStorageService.ts:194-198 | Always appends, with no duplicate check; the count grows by exactly one. On an absent key the mock array becomes the written one (`MockAfterWrite`). |
| Storage.LocalStorageService.GetFavorites | src/services/localStorageService.ts:201-204 | The stored favourites when the key is present, otherwise the mock favourites; the favourites part of `Visible`. |
| Storage.LocalStorageService.GetFavoritesByUserId | src/services/localStorageService.ts:206-208 | Returns exactly the favourites of that user, in stored order, each with its stored multiplicity. |
| Storage.LocalStorageService.SaveFavorite | src/services/localStorageService.ts:210-214 | Always appends; the count grows by exactly one. On an absent key the mock array becomes the written one (`MockAfterWrite`). |
| Storage.LocalStorageService.RemoveFavorite | src/services/localStorageService.ts:216-221 | Removes exactly the entries with that user and listing; the others stay in order. The mock data is unchanged. |
| Storage.LocalStorageService.GetChats | src/services/localStorageService.ts:224-227 | The stored chats when the key is present, otherwise the mock chats; the chats part of `Visible`. |
| Storage.LocalStorageService.GetChatById | src/services/localStorageService.ts:229-231 | Returns the first stored chat with that id. Returns none iff no stored chat has it. |
| Storage.LocalStorageService.GetChatsByParticipant | src/services/localStorageService.ts:233-235 | Returns exactly the chats the user takes part in, in stored order, each with its stored multiplicity. |
| Storage.LocalStorageService.SaveChat | src/services/localStorageService.ts:237-246 | Upserts the chat by id. Afterwards, lookup by id returns it. On an absent key the mock array becomes the written one (`MockAfterWrite`). |
| Storage.LocalStorageService.AddChatMessage | src/services/localStorageService.ts:248-258 | For a known chat, appends the message last and sets the last message text and time; an unknown id changes nothing. On an absent key the mock array becomes the written one (`MockAfterWrite`). |
| Storage.LocalStorageService.ResetData | src/services/localStorageService.ts:261-272 | Clears every key, including the current user, and reseeds from the mock data as it now stands: that includes what earlier writes on absent keys put into it. Readers then see exactly that mock data. |
| Storage.SavedUserOutlivesReset | src/services/localStorageService.ts:261-272 | With no key present, a user saved and then `resetData` leaves that user, and every mock user with another id, among the users. |
| Collections.FindIndex | src/services/localStorageService.ts:71 | Gives the first index satisfying the predicate, or -1 iff there is none. |
| Collections.Find | src/services/localStorageService.ts:62 | Gives the first element satisfying the predicate. Gives none iff there is none. |
| Collections.Any | src/contexts/RentalsContext.tsx:150 | `some`: true iff some element satisfies the predicate. |
| Collections.Filter | src/services/localStorageService.ts:104 | Keeps exactly the satisfying elements, with their multiplicities, as a subsequence of the input. |
| Collections.IndexOfKey | src/services/localStorageService.ts:71 | Gives the first index whose key matches, or -1 iff none does. |
| Collections.FindByKey | src/services/localStorageService.ts:62 | Gives the first element whose key matches, the one at `IndexOfKey`. Gives none iff no key matches. |
| Collections.Upsert | src/services/localStorageService.ts:69-78 | Grows the length by one iff the key was absent, otherwise keeps it. |
| Collections.ReplaceByKey | src/contexts/RentalsContext.tsx:117-118 | Replaces every element with the key by the new value and leaves the rest in place. |
| Collections.Take | src/components/AnalyticsDashboard.tsx:144 | `slice(0, n)`: a prefix of length `min(n, length)`. |
| Collections.IndexOfKeyIs | src/services/localStorageService.ts:71 | The first matching index is the index of any match with no match before it. |
| Collections.UpsertThenFind | src/services/localStorageService.ts:69-78 | After an upsert, lookup by the record's key returns the record. |
| Collections.UpsertExisting | src/services/localStorageService.ts:72-73 | With the key present at index i, an upsert writes index i only. |
| Collections.UpsertNew | src/services/localStorageService.ts:74-75 | With the key absent, an upsert appends. |
| Collections.UpsertMembers | src/services/localStorageService.ts:69-78 | After an upsert the record is present, and so is every record with a different key. |
| Collections.UpsertKeepsOtherKeys | src/services/localStorageService.ts:69-78 | An upsert leaves lookups by every other key unchanged. |
| Collections.FilterConcat | src/services/localStorageService.ts:104 | Filtering distributes over concatenation. |
| Collections.FilterKeepingAll | src/components/OrdersPage.tsx:32 | A filter that admits everything is the identity. |
| Collections.FilterThreeWay | src/components/ShopFrontPage.tsx:60-61 | Three predicates that partition the elements split the length exactly. |
| Collections.SumOfNonNegative | src/components/HomePage.tsx:32 | A `reduce` sum of non-negative terms is non-negative. |
| Collections.SumOfFilterSplit | src/components/HomePage.tsx:32 | The sum over a filter plus the sum over its complement is the total sum. |
| Entities.MergeNothing | src/contexts/ListingsContext.tsx:126-130 | Spreading an empty patch over a listing leaves it unchanged. |
| Rentals.CheckDateConflict | src/contexts/RentalsContext.tsx:146-160 | True iff some stored request for the tool is approved or pending, is not the excluded one, and its closed day range overlaps the request's. A missing end defaults to the start. |
| Rentals.OverlapsIffSharedDay | src/contexts/RentalsContext.tsx:158 | The range test `!(end1 < start2 \|\| start1 > end2)` holds iff the two closed ranges share a day. |
| Rentals.TouchingRangesConflict | src/contexts/RentalsContext.tsx:158 | A request ending on the day a reserving request starts conflicts. |
| Rentals.InactiveRequestsNeverConflict | src/contexts/RentalsContext.tsx:148 | A declined, cancelled or completed request never changes the verdict. |
| Rentals.ExcludedRequestNeverConflicts | src/contexts/RentalsContext.tsx:151 | The request whose id is excluded never changes the verdict. |
| Rentals.Unconflicting | src/contexts/RentalsContext.tsx:150-159 | A request that does not conflict can be removed without changing the verdict. |
| Rentals.RangesOf | src/contexts/RentalsContext.tsx:166-170 | Maps each request, in order, to its start, its end (defaulting to the start) and its status. |
| Rentals.GetUnavailableDates | src/contexts/RentalsContext.tsx:162-171 | Gives one range per approved request for the tool, in stored order, with the end defaulting to the start. |
| Rentals.ApprovedRequestIsUnavailable | src/contexts/RentalsContext.tsx:162-171 | Every approved request's range appears among its tool's unavailable dates. |
| Rentals.RentalsContext.constructor | src/contexts/RentalsContext.tsx:57-59 | Both views start empty and loading. |
| Rentals.RentalsContext.Load | src/contexts/RentalsContext.tsx:63-81 | Initializes the store. Without a user, both views are empty; with one, they are the user's requests as renter and as owner, by email. Loading ends. |
| Rentals.RentalsContext.GetUserRentals | src/contexts/RentalsContext.tsx:142-144 | The renter view itself; after `Load` with a user, the stored requests whose renter email is the user's. |
| Rentals.RentalsContext.AddRentalRequest | src/contexts/RentalsContext.tsx:83-106 | Saves the request under the new id, with no conflict check. It is prepended to the renter view iff the renter is the current user, and to the received view iff the owner is. It reports emails sent. With a fresh id, the store grows by one. |
| Rentals.RentalsContext.UpdateRentalStatus | src/contexts/RentalsContext.tsx:108-123 | An unknown id fails with "Request not found" and changes nothing. Otherwise only that record's status changes, in the store and in both views; any status is accepted. |
| Rentals.RentalsContext.UpdateRentalData | src/contexts/RentalsContext.tsx:125-140 | An unknown id fails with "Request not found" and changes nothing. Otherwise the patch is merged into the record and saved, and both views are updated. |
| Listings.UserListingsOf | src/contexts/ListingsContext.tsx:70-86 | Exactly the listings of the first shop owned by the current user, in stored order and with their multiplicities. Empty without a user or without such a shop. |
| Listings.DelistThenRelist | src/contexts/ListingsContext.tsx:165-199 | Delisting deactivates a listing, and relisting afterwards reactivates it. |
| Listings.ListingsContext.constructor | src/contexts/ListingsContext.tsx:56-58 | Both lists start empty and loading. |
| Listings.ListingsContext.LoadListings | src/contexts/ListingsContext.tsx:62-67 | Initializes the store and shows all stored listings. |
| Listings.ListingsContext.LoadUserListings | src/contexts/ListingsContext.tsx:70-86 | Sets the user's listings to `UserListingsOf` the stored shops and listings. |
| Listings.ListingsContext.AddListing | src/contexts/ListingsContext.tsx:88-113 | Without a user, fails with the source's message and changes nothing. Otherwise saves the listing with the new id, rating 0, reviews 0 and active, and prepends it to both lists. |
| Listings.ListingsContext.UpdateListing | src/contexts/ListingsContext.tsx:115-141 | Without a user, or for an id not among the user's listings, fails with the matching message and changes nothing. Otherwise merges the patch, saves it and replaces only that id in both lists. |
| Listings.ListingsContext.DeleteListing | src/contexts/ListingsContext.tsx:143-163 | The same ownership check. Then removes that id from the store and from both lists, keeping the order of the others. |
| Listings.ListingsContext.DelistListing | src/contexts/ListingsContext.tsx:165-181 | The same ownership check. Then sets `isActive` to false for that listing, in the store and in both lists. |
| Listings.ListingsContext.RelistListing | src/contexts/ListingsContext.tsx:183-199 | The same ownership check. Then sets `isActive` to true for that listing, in the store and in both lists. |
| Favorites.Enrich | src/contexts/FavoritesContext.tsx:57-60 | Each favourite, in order, is paired with the first listing whose id is its `listingId`, or with none if there is no such listing. |
| Favorites.FavoritesContext.constructor | src/contexts/FavoritesContext.tsx:39-40 | Starts with no favourites, loading. |
| Favorites.FavoritesContext.Load | src/contexts/FavoritesContext.tsx:44-68 | Initializes the store. Without a user there are no favourites; with one, they are the user's favourites, enriched. |
| Favorites.FavoritesContext.IsFavorited | src/contexts/FavoritesContext.tsx:70-72 | True iff some favourite in the view is for that listing. |
| Favorites.FavoritesContext.AddFavorite | src/contexts/FavoritesContext.tsx:74-95 | Without a user, fails and changes nothing. Otherwise appends one entry to the store and one to the view, without a duplicate check. The listing is then favourited. |
| Favorites.FavoritesContext.RemoveFavorite | src/contexts/FavoritesContext.tsx:97-109 | Without a user, fails and changes nothing. Otherwise removes the user's entries for the listing from the store, and every entry for it from the view. The listing is then not favourited. |
| Favorites.FavoritesContext.ToggleFavorite | src/contexts/FavoritesContext.tsx:111-117 | Without a user, fails with "User must be authenticated" and changes nothing. With one, a favourited listing takes the `RemoveFavorite` path (the stored favourites lose that user's entries for it, the view its entries) and any other the `AddFavorite` path (the new favourite is appended to the store and, joined with its listing, to the view); either way whether it is favourited flips. |
| Chats.MarkRead | src/contexts/ChatContext.tsx:150-152 | Marks read every message not sent by the reader, and keeps the reader's own messages, the count and the order. |
| Chats.MarkReadIdempotent | src/contexts/ChatContext.tsx:150-152 | Marking read twice is the same as once. |
| Chats.MarkReadMarksOthers | src/contexts/ChatContext.tsx:150-152 | Afterwards, every message from someone else is read. |
| Chats.ChatContext.constructor | src/contexts/ChatContext.tsx:48-49 | Starts with no chats, loading. |
| Chats.ChatContext.Load | src/contexts/ChatContext.tsx:53-69 | Initializes the store. The view is empty without a user, and otherwise the chats the user takes part in. |
| Chats.ChatContext.GetChat | src/contexts/ChatContext.tsx:71-73 | Returns the first chat in the view with that id. Returns none iff there is none. |
| Chats.ChatContext.GetOrCreateChat | src/contexts/ChatContext.tsx:75-106 | Without a user, fails. It returns an existing chat between the two users without any change. Otherwise it saves a new chat with participants `[me, other]` and no messages, and prepends it to the view. |
| Chats.ChatContext.SendMessage | src/contexts/ChatContext.tsx:108-142 | Fails without a user or for a chat not in the view. Otherwise appends an unread message to the stored chat and sets its last message. In the view, only that chat is updated. |
| Chats.ChatContext.MarkAsRead | src/contexts/ChatContext.tsx:144-166 | A chat not in the view, or one with no `messages` array (an absent array, not an empty one), is left alone. Otherwise the chat with its messages marked read is saved and replaced in the view. |
| Auth.WithUid | src/contexts/AuthContext.tsx:52-58 | The user gets `uid == id` and is otherwise unchanged. |
| Auth.AuthContext.constructor | src/contexts/AuthContext.tsx:48-49 | Starts with no user, loading; every current user has `uid == id` (the invariant). |
| Auth.AuthContext.Mount | src/contexts/AuthContext.tsx:61-70 | Initializes the store. It restores the saved current user with `uid` set, keeps the invariant and ends loading. |
| Auth.AuthContext.Signup | src/contexts/AuthContext.tsx:73-93 | A known email fails with "Email already in use" and changes nothing. Otherwise saves the new user, named first + " " + last, makes them current in the store and in state, and the email is then registered. |
| Auth.AuthContext.Login | src/contexts/AuthContext.tsx:96-107 | An unknown email fails with "User not found" and changes nothing. Otherwise that user becomes current; the password is not checked. |
| Auth.AuthContext.LoginWithGoogle | src/contexts/AuthContext.tsx:110-127 | Creates the Google user only if that email is absent, then makes it current. Afterwards the email is registered. |
| Auth.AuthContext.Logout | src/contexts/AuthContext.tsx:130-133 | Leaves no current user, in storage or in state. |
| Auth.AuthContext.ResetPassword | src/contexts/AuthContext.tsx:136-143 | Fails with "User not found" iff the email is unknown, and changes nothing. |
| Clock.DigitValue | src/components/ShopFrontPage.tsx:71-72 | A digit's value is at most 9. |
| Clock.NumberOf | src/components/ShopFrontPage.tsx:71-72 | `Number` of a piece is defined iff it is all digits. |
| Clock.SplitColon | src/components/ShopFrontPage.tsx:71-72 | `split(':')` always yields at least one piece, and text without a colon is that one piece. |
| Clock.HHMMValue | src/components/ShopFrontPage.tsx:73-74 | `h*60+m` of a valid "HH:MM" is a minute of the day (below 1440). |
| Clock.TwoDigits | src/components/ShopFrontPage.tsx:71-72 | Two digits read as tens and units. |
| Clock.ClockMinutes | src/components/ShopFrontPage.tsx:71-74 | Text without a colon gives NaN (none). A number comes out exactly when both of the first two pieces read as numbers, and it is never negative. `ClockMinutesOfHHMM` gives its value for "HH:MM". |
| Clock.SplitColonCons | src/components/ShopFrontPage.tsx:71-72 | A leading character that is not a colon joins the first piece. |
| Clock.ClockMinutesOfHHMM | src/components/ShopFrontPage.tsx:71-74 | Splitting and reading a valid "HH:MM" gives its minute of the day. |
| Clock.LexLessIsTimeOrder | src/components/RentalCalendar.tsx:118 | On valid "HH:MM" strings, string order is time order. |
| Calendar.WithoutIndex | src/components/RentalCalendar.tsx:144 | Drops exactly index i, keeping order. An out-of-range index changes nothing. |
| Calendar.RemoveThenInsert | src/components/RentalCalendar.tsx:144 | Putting the removed slot back at its index restores the list. |
| Calendar.SlotEvents | src/components/RentalCalendar.tsx:50-63 | Gives one availability event per slot, in order. |
| Calendar.RentalEvents | src/components/RentalCalendar.tsx:73-91 | Gives one rental event per request, in order. |
| Calendar.Events | src/components/RentalCalendar.tsx:48-92 | Availability mode shows the slots. Otherwise the events are exactly the source requests (the user's in customer mode, the received ones in owner mode) that are not cancelled or declined: one event per such request, in their stored order and with their multiplicities. |
| Calendar.RefusedIffNotLater | src/components/RentalCalendar.tsx:118-121 | The `start >= end` string check refuses exactly the slots whose end time is not later than the start. |
| Calendar.AvailabilityEditor.constructor | src/components/RentalCalendar.tsx:41-45 | Starts with no slots, no date and the 09:00–17:00 defaults. |
| Calendar.AvailabilityEditor.DateClick | src/components/RentalCalendar.tsx:104-110 | Only in availability mode, selects the date and opens the slot form. |
| Calendar.AvailabilityEditor.AddTimeSlot | src/components/RentalCalendar.tsx:112-141 | Refuses, changing nothing, iff a field is empty or start >= end. Otherwise appends exactly one slot, publishes the new list and resets the form to "", "09:00" and "17:00". |
| Calendar.AvailabilityEditor.RemoveTimeSlot | src/components/RentalCalendar.tsx:143-150 | Removes exactly index i, with an out-of-range index changing nothing, and publishes the list. |
| Orders.FilterOrders | src/components/OrdersPage.tsx:31-40 | "all" keeps every order. Otherwise it keeps exactly the orders with that status, with their multiplicities, as a subsequence of the input. |
| Orders.GetOrderDetails | src/components/OrdersPage.tsx:22-28 | Keeps the order, with the first listing whose id is the tool id, or none iff there is no such listing. |
| Orders.WithDetails | src/components/OrdersPage.tsx:22-40 | Details each order, in order. |
| Orders.FilteredOrders | src/components/OrdersPage.tsx:31-40 | One entry per filtered order, in order: entry i is `GetOrderDetails` of the i-th filtered order, and each is admitted by the filter. |
| Orders.Actions | src/components/OrdersPage.tsx:154-217 | Approve and Decline appear iff owner view and pending; Mark Complete iff renter view and approved; Invoice iff completed. View Item and Message always appear. |
| Orders.ButtonsFollowLifecycle | src/components/OrdersPage.tsx:154-181 | Every status button asks for a lifecycle step: pending to approved or declined, or approved to completed. Only the renter asks for completion. The request itself fails as written (see Left out). |
| Orders.SettledOrdersOfferNoChange | src/components/OrdersPage.tsx:154-181 | Declined, completed and cancelled orders offer no status change. |
| ShopFront.FindShop | src/components/ShopFrontPage.tsx:24-29 | Returns the first shop with the route id. Returns none iff there is none. |
| ShopFront.ShopItems | src/components/ShopFrontPage.tsx:32-37 | Exactly the listings of the route shop, in order and with their multiplicities. An empty route id keeps the previous items. |
| ShopFront.Products | src/components/ShopFrontPage.tsx:60 | Exactly the items of type product, in order and with their multiplicities. |
| ShopFront.Services | src/components/ShopFrontPage.tsx:61 | Exactly the items of type service, in order and with their multiplicities. |
| ShopFront.ProductsAndServicesDisjoint | src/components/ShopFrontPage.tsx:60-61 | No item is in both; untyped items are in neither. |
| ShopFront.KindsPartitionItems | src/components/ShopFrontPage.tsx:60-61 | Products, services and untyped items together count every item exactly once. |
| ShopFront.IsOpen | src/components/ShopFrontPage.tsx:63-77 | Without hours, the shop is open; without today's entry, closed. An entry lacking open or close is an error. Otherwise open iff the open time <= now < the close time. |
| ShopFront.IsOpenWithClockTimes | src/components/ShopFrontPage.tsx:66-76 | With valid "HH:MM" times, open iff the open minute <= now < the close minute. The closing minute itself is closed. |
| Home.ByStatus | src/components/HomePage.tsx:26-30 | Exactly the requests with that status, in order and with their multiplicities. |
| Home.DashboardStats | src/components/HomePage.tsx:26-33 | Each count is the size of a status filter. Earnings and spending are the cost sums over completed received and user requests. |
| Home.StatsBounds | src/components/HomePage.tsx:26-33 | The user counts add up to at most the user's requests, and the received counts to at most the received ones. Earnings lie between 0 and the total cost. |
| Home.StatusCountsBound | src/components/HomePage.tsx:26-30 | Filters by distinct statuses count at most the whole list. |
| Home.FilterBounded | src/components/HomePage.tsx:26-30 | A narrower filter keeps no more than a wider one. |
| Home.FirstWord | src/components/HomePage.tsx:39 | `split(' ')[0]` is a prefix containing no space, and it is the whole text or is followed by a space. |
| Home.GreetingName | src/components/HomePage.tsx:39 | A non-empty name without spaces: "User", or the text before the first space of the display name. An empty name or one starting with a space gives "User". |
| Home.WelcomeTitle | src/components/HomePage.tsx:39 | "Welcome to HomeBase, " followed by the greeting name and "!". |
| Home.GreetsByFirstName | src/components/HomePage.tsx:39 | The banner greets a "first last" name by its first word, or "User" when that word is empty. |
| Home.FirstWordBeforeSpace | src/components/HomePage.tsx:39 | The first word of "first last" is first. |
| Home.NextIndex | src/components/HomePage.tsx:79 | `(i+1) % n` stays in `[0, n)`. |
| Home.PrevIndex | src/components/HomePage.tsx:80 | `(i-1+n) % n` stays in `[0, n)`. |
| Home.ModBelowTwice | src/components/HomePage.tsx:79-80 | Below 2n, `% n` subtracts n at most once. |
| Home.NextPrevInverse | src/components/HomePage.tsx:79-80 | Previous undoes next and next undoes previous. |
| Home.Carousel.constructor | src/components/HomePage.tsx:19 | Starts on slide 0. |
| Home.Carousel.NextSlide | src/components/HomePage.tsx:79 | Moves to the next slide, cyclically, staying in range. |
| Home.Carousel.PrevSlide | src/components/HomePage.tsx:80 | Moves to the previous slide, cyclically, staying in range. |
| Home.Carousel.Tick | src/components/HomePage.tsx:72-77 | The timer takes the same step as the next button. |
| Home.FeaturedListings | src/components/HomePage.tsx:273 | A prefix of the listings: the first 8, or all of them if there are fewer. |
| Home.FeaturedShops | src/components/HomePage.tsx:318 | A prefix of the shops: the first 6, or all of them if there are fewer. |
| Home.ShopItemCount | src/components/HomePage.tsx:319 | The number of positions in the listings whose `shopId` is the shop's id. |
| Home.CardShop | src/components/HomePage.tsx:274 | The first shop whose id is the listing's shop id. None exactly when the listing has no shop id or no shop has it. |
| Home.CardLabel | src/components/HomePage.tsx:293 | The name of the first shop with the listing's shop id when that name is non-empty, otherwise the listing's owner; the owner whenever no shop has the id. |
| Analytics.InsertDescending | src/components/AnalyticsDashboard.tsx:53 | Inserting adds exactly one element. |
| Analytics.InsertAddsOne | src/components/AnalyticsDashboard.tsx:53 | Inserting adds exactly that element to the multiset. |
| Analytics.InsertKeepsOrder | src/components/AnalyticsDashboard.tsx:53 | Inserting into a descending list keeps it descending. |
| Analytics.SortDescending | src/components/AnalyticsDashboard.tsx:52-53 | The sort is a permutation of its input, descending by key. |
| Analytics.SortByReviews | src/components/AnalyticsDashboard.tsx:52-53 | The reviews sort is a permutation in non-increasing review order. |
| Analytics.TopProducts | src/components/AnalyticsDashboard.tsx:52-54 | The 3 most reviewed shop listings (all of them when fewer), a sub-multiset in non-increasing review order. No listing left out has more reviews than one kept, and the first has the most reviews. |
| Analytics.TopProductRule | src/components/AnalyticsDashboard.tsx:85 | The restock rule, which looks only at the first top product, fires iff some listing of the shop has more than 10 reviews. |
| Analytics.Ratio | src/components/AnalyticsDashboard.tsx:43-48 | The average is the quotient, or 0 when dividing by an empty count. |
| Analytics.ShopMetrics | src/components/AnalyticsDashboard.tsx:26-54 | None iff there is no user or no shop. Otherwise it gives the shop's listings and orders (with their multiplicities), the completed and pending subsets, revenue as the completed cost sum, the averages, the conversion rate and the top products. |
| Analytics.OrderMetricsBounds | src/components/AnalyticsDashboard.tsx:38-44 | Completed plus pending orders are at most all orders. Revenue lies between 0 and the total order cost. The conversion rate lies in [0, 100]. |
| Analytics.RevenueBound | src/components/AnalyticsDashboard.tsx:42 | Revenue lies between 0 and the total order cost. |
| Analytics.RateIsPercentage | src/components/AnalyticsDashboard.tsx:44 | A part of a whole is between 0 and 100 percent. |
| Analytics.MetricsBounds | src/components/AnalyticsDashboard.tsx:26-44 | With a user and a shop, the metrics ShopMetrics computes respect the bounds above. |
| Analytics.MulLess | src/components/AnalyticsDashboard.tsx:61 | Multiplying by a positive factor preserves `<` both ways. |
| Analytics.ConversionBelowThirty | src/components/AnalyticsDashboard.tsx:61 | Rate < 30% iff completed*100 < 30*orders. |
| Analytics.Candidates | src/components/AnalyticsDashboard.tsx:60-142 | A rule is a candidate iff its condition holds, in rule order. |
| Analytics.Cards | src/components/AnalyticsDashboard.tsx:62-141 | One card per fired rule. |
| Analytics.CardsAppend | src/components/AnalyticsDashboard.tsx:62-141 | Firing one more rule appends its card. |
| Analytics.CardsTake | src/components/AnalyticsDashboard.tsx:144 | Slicing the cards is the same as slicing the rules first. |
| Analytics.PushIfFires | src/components/AnalyticsDashboard.tsx:61-70 | A rule's card is pushed iff the rule fires. |
| Analytics.GenerateRecommendations | src/components/AnalyticsDashboard.tsx:57-145 | The cards of the first 5 firing rules, in rule order; never more than 5. |
| Analytics.LaterRules | src/components/AnalyticsDashboard.tsx:97-133 | Rule 4 fires iff fewer than 5 listings; rule 5 iff there are pending orders; rule 6 iff more than 5 completed; rule 7 iff fewer than 5 shop reviews. |
| Analytics.CapDropsOnlyBeyondFive | src/components/AnalyticsDashboard.tsx:144 | Up to 5 firing rules all appear; with more, exactly 5 appear. |
| ShopPage.FormOf | src/components/ShopPage.tsx:55-76 | The form takes the shop's fields. Absent contact fields become "" and absent hours the defaults. |
| ShopPage.WithField | src/components/ShopPage.tsx:78-87 | Only the named field changes. |
| ShopPage.WithHours | src/components/ShopPage.tsx:89-104 | Only that day's open or close time changes. A missing day gets an entry holding only that time. |
| ShopPage.HoursLastWriteWins | src/components/ShopPage.tsx:89-104 | Setting a time twice keeps the second value. |
| ShopPage.HoursUnchangedBySameValue | src/components/ShopPage.tsx:89-104 | Setting a time to its current value changes nothing. |
| ShopPage.CreatedShop | src/components/ShopPage.tsx:127-139 | The new shop is owned by the user's `uid`, with the user's email and name, the form, rating 0 and reviews 0. |
| ShopPage.ShopEditor.constructor | src/components/ShopPage.tsx:17-36 | The form starts empty with the default hours. Editing starts iff there is no shop. |
| ShopPage.ShopEditor.LoadShop | src/components/ShopPage.tsx:55-76 | A shop fills the form and ends editing; without one, nothing changes. |
| ShopPage.ShopEditor.HandleInputChange | src/components/ShopPage.tsx:78-87 | Only the named field of the form changes. |
| ShopPage.ShopEditor.HandleHoursChange | src/components/ShopPage.tsx:89-104 | Only that day's time in the form changes. |
| ShopPage.ShopEditor.HandleSubmit | src/components/ShopPage.tsx:106-156 | Refuses without a user, or with an empty name, category or location; the description is not checked. Otherwise it asks for an update of the current shop, or the creation of a shop owned by the user. Success ends editing and shows the matching notice; failure changes nothing. |
| ShopPage.ShopEditor.SuccessTimeout | src/components/ShopPage.tsx:150-152 | Closes the modal only. |
| ShopPageNew.TabNamed | src/components/ShopPageNew.tsx:24-28 | Gives the tab with that URL name, or none iff no tab has it. |
| ShopPageNew.TabNamesRoundTrip | src/components/ShopPageNew.tsx:24-28 | Every tab is found by its own name. |
| ShopPageNew.ShopListings | src/components/ShopPageNew.tsx:77 | Exactly the listings of the current shop, in order and with their multiplicities. Without a shop, exactly those with no shop id. |
| ShopPageNew.WithListingField | src/components/ShopPageNew.tsx:114-122 | Only the named listing field changes. |
| ShopPageNew.LeadingDigits | src/components/ShopPageNew.tsx:187 | The longest all-digit prefix. |
| ShopPageNew.ParseIntOrZero | src/components/ShopPageNew.tsx:187 | `parseInt(s) \|\| 0` is 0 when the text does not start with a digit. |
| ShopPageNew.ParseIntOfDigits | src/components/ShopPageNew.tsx:187 | All-digit text parses to its number. |
| ShopPageNew.ParseIntIgnoresTail | src/components/ShopPageNew.tsx:187 | Digits followed by a non-digit parse to the number of the digits. |
| ShopPageNew.DigitsThenTail | src/components/ShopPageNew.tsx:187 | The leading digits of such text are exactly the digits. |
| ShopPageNew.ListingDraft | src/components/ShopPageNew.tsx:174-190 | The new listing copies the form. Stock is set only for products (parsed, non-numeric giving 0). The shop id is the current shop's or "". It is active. |
| ShopPageNew.DashboardShop | src/components/ShopPageNew.tsx:146-154 | The new shop is owned by the user's `id` (or ""), with the email and name (or ""), the form, rating 0 and reviews 0. |
| ShopPageNew.OwnersAgree | src/components/ShopPageNew.tsx:146-154 | With `uid == id`, both editors create the same shop. |
| ShopPageNew.OwnersDifferWithoutUid | src/components/ShopPageNew.tsx:146-154 | For a user record without a `uid`, the two editors disagree on the owner. |
| ShopPageNew.ShopDashboard.constructor | src/components/ShopPageNew.tsx:21-60 | Starts on the dashboard tab, with empty forms and editing iff there is no shop. |
| ShopPageNew.ShopDashboard.SelectTab | src/components/ShopPageNew.tsx:24-28 | Adopts a URL tab only if it names a tab; otherwise nothing changes. |
| ShopPageNew.ShopDashboard.LoadShop | src/components/ShopPageNew.tsx:80-101 | A shop fills the form and ends editing; without one, nothing changes. |
| ShopPageNew.ShopDashboard.HandleInputChange | src/components/ShopPageNew.tsx:103-112 | Only the named shop field changes. |
| ShopPageNew.ShopDashboard.HandleListingInputChange | src/components/ShopPageNew.tsx:114-122 | Only the named listing field changes. |
| ShopPageNew.ShopDashboard.HandleListingTypeChange | src/components/ShopPageNew.tsx:439-451 | Only the listing type changes. |
| ShopPageNew.ShopDashboard.HandleHoursChange | src/components/ShopPageNew.tsx:124-139 | Only that day's time changes. |
| ShopPageNew.ShopDashboard.HandleSaveShop | src/components/ShopPageNew.tsx:141-166 | Updates when a shop exists, otherwise creates one, with no required-field check. Success ends editing and shows the notice; failure changes no flag. |
| ShopPageNew.ShopDashboard.ListingCreated | src/components/ShopPageNew.tsx:193-208 | Resets the listing form to defaults, shows the notice and returns to the dashboard tab. |
| ShopPageNew.ShopDashboard.HandleAddListing | src/components/ShopPageNew.tsx:168-213 | An empty name, description, category or price alerts "Please fill in all fields"; the lack of a user alerts "Failed to create listing". Either way the store, the listings and the user's listings are unchanged. Otherwise the draft is upserted in the store, prepended to both the listings and the user's listings, and the form reset with the success notice on the dashboard tab. |

## Left out

- Browser storage and JSON: `localStorage` and `JSON.parse`/`stringify` are modelled as one optional record sequence per key. The contents of the mock seed data are left open: it is a field whose initial value is a parameter, changed only by writes on absent keys.
- Id generation: `generateId` uses `Math.random`, so ids are a `newId` parameter. Freshness is a hypothesis of the contracts that need it, not a precondition.
- Timestamps: `createdAt`, `updatedAt`, `requestDate` and `Date` parsing are left out. Rental dates are integer day numbers. Chat message times are an integer `now` parameter, because storage copies them.
- Floating point: money, ratings and averages are exact reals. The price typed into the listing form is given as an already parsed `real`, and `toFixed` formatting is not modelled.
- Recommendation descriptions and icons are not modelled; they only interpolate numbers into text. Titles, impacts and actions are modelled.
- The `|| 0` fallbacks for a missing `totalCost`, `rating` or `reviews` are not modelled. These fields are always present in the model.
- Analytics.SortByReviews: the sort's stability (equal review counts keep their order) is not stated.
- ShopPageNew.ParseIntOrZero: leading whitespace and signs, which `parseInt` accepts, are not modelled.
- Clock.NumberOf: `Number` of text with whitespace, signs or decimals is not modelled, only digit strings.
- Strings compare by `char`; UTF-16 code-unit ordering is not modelled beyond that.
- The shop service (`ShopContext` over a remote service) is not part of this model. Its answer is a parameter and its request is a result.
- React machinery: effects, dependency lists, stale closures and `async` ordering are not modelled. Each handler is one atomic step, and the current user is a parameter.
- User interface output: alerts, `console` output, navigation, JSX, theming and the FullCalendar event objects beyond their source request or slot are not modelled.
- No status state machine is enforced, because the code has none: `updateRentalStatus` accepts any status. Only the buttons of the orders page are modelled.
- What a status button does when clicked is not modelled, only which buttons appear. `src/components/OrdersPage.tsx:14,44` calls `updateRentalRequestStatus`, which the rentals context does not provide (`src/contexts/RentalsContext.tsx:30-39`). As written, every Approve, Decline or Mark Complete click therefore throws a TypeError, the page alerts "Error updating status", and no status changes. No model member connects a button to `Rentals.RentalsContext.UpdateRentalStatus`; that method models the context's own operation.
- Rentals.RentalsContext.AddRentalRequest: `emailsSent` is always true, because storage cannot fail here. The error path of the `catch` is not modelled.
- The calendar's `onAvailabilityChange` callback is modelled as the published list returned by the method.
- Listing `coordinates`, `imageUrls` and the shop `coordinates` constant are not modelled.
- Form inputs with an unknown `name` are not modelled: the input names are an enumeration.
- A chat whose `messages` is an empty array is not a no-op: an empty array is truthy, so it is saved again and replaced in the view, as the code does.
- Analytics.PushIfFires: the source's inline `if`/`push` for each rule is factored into this helper method.
- Day of week and time of day for `isOpen` are parameters (a day index 0–6 and minutes since midnight).
