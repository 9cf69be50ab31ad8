/**
 * The records the data layer stores: users, shops, listings, rental requests (orders and
 * bookings), reviews, favourites and chats, as the TypeScript interfaces of the contexts
 * declare them. Optional properties (`x?: T`) are `Option`s. Images, coordinates of listings,
 * and the `createdAt`/`updatedAt`/`requestDate` timestamps are not part of the model; a chat
 * message's `createdAt` and a chat's `lastMessageTime` are kept as integer instants because
 * the store copies one into the other.
 */
module Entities {
  import opened Wrappers

  type Id = string

  /** Opening hours of a shop: day name to a record of "open"/"close" to "HH:MM". */
  type Hours = map<string, map<string, string>>

  datatype User = User(id: Id, uid: Option<Id>, email: string, displayName: string,
                       photoURL: Option<string>)

  datatype Shop = Shop(
    id: Id, ownerId: Id, ownerEmail: string, ownerName: string,
    shopName: string, shopDescription: string, category: string, location: string,
    phone: Option<string>, website: Option<string>, instagram: Option<string>,
    operatingHours: Option<Hours>, rating: real, reviews: int)

  /** The `type` of a listing: `'product' | 'service'`. */
  datatype ListingType = Product | Service

  datatype Listing = Listing(
    id: Id, name: string, description: string, category: string, price: real, period: string,
    location: string, owner: string, ownerContact: string, rating: real, reviews: int,
    isActive: Option<bool>, kind: Option<ListingType>, stock: Option<int>, shopId: Option<Id>)

  /** `'pending' | 'approved' | 'declined' | 'completed' | 'cancelled'`. */
  datatype Status = Pending | Approved | Declined | Completed | Cancelled

  /** A rental request (an order or booking); dates are day numbers. */
  datatype RentalRequest = RentalRequest(
    id: Id, toolId: Id, toolName: string, renterName: string, renterEmail: string,
    ownerEmail: string, ownerName: string, startDate: int, endDate: Option<int>,
    startTime: string, endTime: Option<string>, message: string, quantity: Option<int>,
    totalCost: real, status: Status, orderType: Option<ListingType>, location: string,
    hasReview: Option<bool>, shopId: Option<Id>)

  datatype Review = Review(id: Id, listingId: Id, userId: Id, rating: real, comment: string)

  datatype Favorite = Favorite(id: Option<Id>, userId: Id, listingId: Id)

  /** A chat message; `createdAt` is an instant, `read` is absent until set. */
  datatype ChatMessage = ChatMessage(id: Option<Id>, senderId: Id, text: string, createdAt: int,
                                     read: Option<bool>)

  datatype Chat = Chat(id: Id, participants: seq<Id>, lastMessage: Option<string>,
                       lastMessageTime: Option<int>, messages: Option<seq<ChatMessage>>)

  // The `id` of each kind of record, as the key every lookup and upsert compares.

  function UserId(u: User): Id { u.id }
  function ShopId(s: Shop): Id { s.id }
  function ListingId(l: Listing): Id { l.id }
  function RentalId(r: RentalRequest): Id { r.id }
  function ChatId(c: Chat): Id { c.id }

  /**
   * A `Partial<Listing>`: every property that is present overrides the record's
   * (`{ ...listing, ...updates }`); an optional property can be overridden with a value.
   */
  datatype ListingPatch = ListingPatch(
    id: Option<Id>, name: Option<string>, description: Option<string>, category: Option<string>,
    price: Option<real>, period: Option<string>, location: Option<string>, owner: Option<string>,
    ownerContact: Option<string>, rating: Option<real>, reviews: Option<int>,
    isActive: Option<Option<bool>>, kind: Option<Option<ListingType>>,
    stock: Option<Option<int>>, shopId: Option<Option<Id>>)

  /** The patch with no properties, `{}`. */
  const NoListingChanges := ListingPatch(None, None, None, None, None, None, None, None, None,
                                         None, None, None, None, None, None)

  /** `{ ...l, ...p }`. */
  function MergeListing(l: Listing, p: ListingPatch): Listing
  {
    Listing(
      p.id.GetOr(l.id), p.name.GetOr(l.name), p.description.GetOr(l.description),
      p.category.GetOr(l.category), p.price.GetOr(l.price), p.period.GetOr(l.period),
      p.location.GetOr(l.location), p.owner.GetOr(l.owner), p.ownerContact.GetOr(l.ownerContact),
      p.rating.GetOr(l.rating), p.reviews.GetOr(l.reviews), p.isActive.GetOr(l.isActive),
      p.kind.GetOr(l.kind), p.stock.GetOr(l.stock), p.shopId.GetOr(l.shopId))
  }

  /** A `Partial<RentalRequest>`, merged as `{ ...request, ...data }`. */
  datatype RentalPatch = RentalPatch(
    id: Option<Id>, toolId: Option<Id>, toolName: Option<string>, renterName: Option<string>,
    renterEmail: Option<string>, ownerEmail: Option<string>, ownerName: Option<string>,
    startDate: Option<int>, endDate: Option<Option<int>>, startTime: Option<string>,
    endTime: Option<Option<string>>, message: Option<string>, quantity: Option<Option<int>>,
    totalCost: Option<real>, status: Option<Status>, orderType: Option<Option<ListingType>>,
    location: Option<string>, hasReview: Option<Option<bool>>, shopId: Option<Option<Id>>)

  /** `{ ...r, ...p }`. */
  function MergeRental(r: RentalRequest, p: RentalPatch): RentalRequest
  {
    RentalRequest(
      p.id.GetOr(r.id), p.toolId.GetOr(r.toolId), p.toolName.GetOr(r.toolName),
      p.renterName.GetOr(r.renterName), p.renterEmail.GetOr(r.renterEmail),
      p.ownerEmail.GetOr(r.ownerEmail), p.ownerName.GetOr(r.ownerName),
      p.startDate.GetOr(r.startDate), p.endDate.GetOr(r.endDate),
      p.startTime.GetOr(r.startTime), p.endTime.GetOr(r.endTime), p.message.GetOr(r.message),
      p.quantity.GetOr(r.quantity), p.totalCost.GetOr(r.totalCost), p.status.GetOr(r.status),
      p.orderType.GetOr(r.orderType), p.location.GetOr(r.location),
      p.hasReview.GetOr(r.hasReview), p.shopId.GetOr(r.shopId))
  }

  /** Merging the empty patch gives the record back unchanged. */
  lemma MergeNothing(l: Listing)
    ensures MergeListing(l, NoListingChanges) == l
  {
  }
}
