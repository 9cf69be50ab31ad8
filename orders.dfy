/**
 * The orders page (`OrdersPage`): the user's orders and the bookings the user received,
 * filtered by status, each shown with its listing and with the action buttons its status and
 * the viewer's role allow. The buttons are the only place where status changes are gated: the
 * rentals controller itself accepts any status.
 */
module Orders {
  import opened Wrappers
  import opened Collections
  import opened Entities

  /** The status filter: all orders, or the pending, approved or completed ones. */
  datatype StatusFilter = All | PendingOnly | ApprovedOnly | CompletedOnly

  /** The filter callback: `all` keeps every order, any other filter the orders with that status. */
  predicate Admits(filter: StatusFilter, s: Status)
  {
    match filter
    case All => true
    case PendingOnly => s == Pending
    case ApprovedOnly => s == Approved
    case CompletedOnly => s == Completed
  }

  function AdmittedBy(filter: StatusFilter): RentalRequest -> bool
  {
    (r: RentalRequest) => Admits(filter, r.status)
  }

  /**
   * The filtered orders: all of them under `all`, otherwise exactly those with the chosen
   * status; the result keeps the orders' relative order.
   */
  function FilterOrders(orders: seq<RentalRequest>, filter: StatusFilter): (r: seq<RentalRequest>)
    ensures filter.All? ==> r == orders
    ensures filter.PendingOnly? ==> forall x :: x in r <==> x in orders && x.status == Pending
    ensures filter.ApprovedOnly? ==> forall x :: x in r <==> x in orders && x.status == Approved
    ensures filter.CompletedOnly? ==> forall x :: x in r <==> x in orders && x.status == Completed
    ensures forall x :: x in r <==> x in orders && Admits(filter, x.status)
    ensures forall x :: multiset(r)[x] == if Admits(filter, x.status) then multiset(orders)[x] else 0
    ensures IsSubsequence(r, orders)
  {
    var r := Filter(orders, AdmittedBy(filter));
    if filter.All? then
      FilterKeepingAll(orders, AdmittedBy(filter));
      r
    else r
  }

  /** An order together with its listing, `undefined` when no listing has the order's tool id. */
  datatype OrderDetails = OrderDetails(order: RentalRequest, listing: Option<Listing>)

  /** `getOrderDetails`: the order unchanged, with the first listing whose id is its `toolId`. */
  function GetOrderDetails(listings: seq<Listing>, order: RentalRequest): (r: OrderDetails)
    ensures r.order == order
    ensures r.listing.Some? ==> r.listing.value in listings && r.listing.value.id == order.toolId
    ensures r.listing.None? <==> forall l :: l in listings ==> l.id != order.toolId
    ensures r.listing.Some? ==>
      exists i :: 0 <= i < |listings| && listings[i] == r.listing.value &&
        forall j :: 0 <= j < i ==> listings[j].id != order.toolId
  {
    OrderDetails(order, FindByKey(listings, ListingId, order.toolId))
  }

  /** `.map(getOrderDetails)`. */
  function WithDetails(listings: seq<Listing>, orders: seq<RentalRequest>): (r: seq<OrderDetails>)
    ensures |r| == |orders|
    ensures forall i :: 0 <= i < |orders| ==> r[i] == GetOrderDetails(listings, orders[i])
    ensures forall d :: d in r ==> d.order in orders
  {
    if orders == [] then [] else [GetOrderDetails(listings, orders[0])] + WithDetails(listings, orders[1..])
  }

  /** The list a tab shows: the filtered orders, each with its details, in order. */
  function FilteredOrders(orders: seq<RentalRequest>, filter: StatusFilter, listings: seq<Listing>)
    : (r: seq<OrderDetails>)
    ensures |r| == |FilterOrders(orders, filter)|
    ensures forall i :: 0 <= i < |r| ==> r[i] == GetOrderDetails(listings, FilterOrders(orders, filter)[i])
    ensures forall d :: d in r ==> d.order in orders && Admits(filter, d.order.status)
  {
    WithDetails(listings, FilterOrders(orders, filter))
  }

  /** The buttons of an order card. */
  datatype Action = Approve | Decline | MarkComplete | ViewItem | Message | Invoice

  /**
   * The buttons an order card shows, in screen order: Approve and Decline to the owner of a
   * pending order, Mark Complete to the renter of an approved one, View Item and Message
   * always, Invoice for a completed order.
   */
  function Actions(status: Status, isOwner: bool): (r: seq<Action>)
    ensures Approve in r <==> isOwner && status == Pending
    ensures Decline in r <==> isOwner && status == Pending
    ensures MarkComplete in r <==> !isOwner && status == Approved
    ensures ViewItem in r && Message in r
    ensures Invoice in r <==> status == Completed
  {
    (if isOwner && status == Pending then [Approve, Decline] else []) +
    (if !isOwner && status == Approved then [MarkComplete] else []) +
    [ViewItem, Message] +
    (if status == Completed then [Invoice] else [])
  }

  /** The status a button asks for, if it changes one. */
  function Target(a: Action): Option<Status>
  {
    match a
    case Approve => Some(Approved)
    case Decline => Some(Declined)
    case MarkComplete => Some(Completed)
    case _ => None
  }

  /** The order lifecycle: pending to approved or declined, approved to completed. */
  predicate LifecycleStep(from: Status, to: Status)
  {
    (from == Pending && (to == Approved || to == Declined)) || (from == Approved && to == Completed)
  }

  /**
   * Every status change the buttons offer is a lifecycle step, and every lifecycle step is
   * offered to exactly one side: the owner decides pending orders, the renter completes
   * approved ones.
   */
  lemma ButtonsFollowLifecycle(status: Status, isOwner: bool, a: Action)
    requires a in Actions(status, isOwner) && Target(a).Some?
    ensures LifecycleStep(status, Target(a).value)
    ensures Target(a).value == Completed <==> !isOwner
  {
  }

  /** No button is offered that changes a declined, completed or cancelled order. */
  lemma SettledOrdersOfferNoChange(status: Status, isOwner: bool)
    requires status == Declined || status == Completed || status == Cancelled
    ensures forall a :: a in Actions(status, isOwner) ==> Target(a).None?
  {
  }
}
