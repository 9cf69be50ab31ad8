/**
 * The signed-in home page (`HomePage`): counts and money totals over the user's requests and
 * the requests the user received, a greeting, a four-banner carousel that advances on a timer
 * or by hand, and the featured listings and shops.
 */
module Home {
  import opened Wrappers
  import opened Collections
  import opened Entities
  import opened Storage

  function WithStatus(s: Status): RentalRequest -> bool
  {
    (r: RentalRequest) => r.status == s
  }

  /** The requests with one status, in their order. */
  function ByStatus(requests: seq<RentalRequest>, s: Status): (r: seq<RentalRequest>)
    ensures forall x :: x in r <==> x in requests && x.status == s
    ensures forall x :: multiset(r)[x] == if x.status == s then multiset(requests)[x] else 0
    ensures IsSubsequence(r, requests)
  {
    Filter(requests, WithStatus(s))
  }

  /** The figures at the top of the page. */
  datatype Stats = Stats(activeRentals: nat, completedRentals: nat, pendingRequests: nat,
                         incomingRequests: nat, completedBookings: nat,
                         totalEarnings: real, totalSpent: real)

  function Cost(r: RentalRequest): real { r.totalCost }

  /**
   * Active, completed and pending are the user's approved, completed and pending requests;
   * incoming and completed bookings the received pending and completed ones. Earnings add up
   * the cost of the completed received requests, spending that of the user's completed ones.
   */
  function DashboardStats(userRequests: seq<RentalRequest>, receivedRequests: seq<RentalRequest>)
    : (r: Stats)
    ensures r.activeRentals == |ByStatus(userRequests, Approved)|
    ensures r.completedRentals == |ByStatus(userRequests, Completed)|
    ensures r.pendingRequests == |ByStatus(userRequests, Pending)|
    ensures r.incomingRequests == |ByStatus(receivedRequests, Pending)|
    ensures r.completedBookings == |ByStatus(receivedRequests, Completed)|
    ensures r.totalEarnings == SumOf(ByStatus(receivedRequests, Completed), Cost)
    ensures r.totalSpent == SumOf(ByStatus(userRequests, Completed), Cost)
  {
    var completedRentals := ByStatus(userRequests, Completed);
    var completedBookings := ByStatus(receivedRequests, Completed);
    Stats(|ByStatus(userRequests, Approved)|, |completedRentals|, |ByStatus(userRequests, Pending)|,
          |ByStatus(receivedRequests, Pending)|, |completedBookings|,
          SumOf(completedBookings, Cost), SumOf(completedRentals, Cost))
  }

  /**
   * No count exceeds the list it counts; earnings are at most what all received requests
   * cost, and are not negative when no cost is.
   */
  lemma {:induction false} StatsBounds(userRequests: seq<RentalRequest>, receivedRequests: seq<RentalRequest>)
    requires forall x :: x in receivedRequests ==> x.totalCost >= 0.0
    ensures var st := DashboardStats(userRequests, receivedRequests);
      && st.activeRentals + st.completedRentals + st.pendingRequests <= |userRequests|
      && st.incomingRequests + st.completedBookings <= |receivedRequests|
      && 0.0 <= st.totalEarnings <= SumOf(receivedRequests, Cost)
  {
    var completed := WithStatus(Completed);
    SumOfFilterSplit(receivedRequests, Cost, completed);
    SumOfNonNegative(Filter(receivedRequests, completed), Cost);
    SumOfNonNegative(Filter(receivedRequests, Not(completed)), Cost);
    StatusCountsBound(userRequests, Approved, Completed, Pending);
    StatusCountsBound(receivedRequests, Pending, Completed, Completed);
  }

  /** Three filters by distinct statuses (or two, when the last repeats one) fit in the list. */
  lemma {:induction false} StatusCountsBound(requests: seq<RentalRequest>, a: Status, b: Status, c: Status)
    requires a != b
    ensures a != c && b != c ==>
      |ByStatus(requests, a)| + |ByStatus(requests, b)| + |ByStatus(requests, c)| <= |requests|
    ensures |ByStatus(requests, a)| + |ByStatus(requests, b)| <= |requests|
  {
    var p, q := WithStatus(a), WithStatus(b);
    var rest := (x: RentalRequest) => x.status != a && x.status != b;
    FilterThreeWay(requests, p, q, rest);
    if a != c && b != c {
      var u := WithStatus(c);
      FilterBounded(requests, rest, u);
    }
  }

  /** A filter whose condition implies another's keeps no more elements than it. */
  lemma {:induction false} FilterBounded(s: seq<RentalRequest>, wide: RentalRequest -> bool,
                                         narrow: RentalRequest -> bool)
    requires forall x :: x in s && narrow(x) ==> wide(x)
    ensures |Filter(s, narrow)| <= |Filter(s, wide)|
  {
    if s != [] {
      assert forall x :: x in s[1..] ==> x in s;
      FilterBounded(s[1..], wide, narrow);
    }
  }

  // -----------------------------------------------------------------------------------------
  // Greeting

  /** `s.split(' ')[0]`: the text before the first space. */
  function FirstWord(s: string): (r: string)
    ensures r <= s && ' ' !in r
    ensures r == s || s[|r|] == ' '
  {
    if s == [] || s[0] == ' ' then [] else [s[0]] + FirstWord(s[1..])
  }

  /** `displayName?.split(' ')[0] || 'User'`. */
  function GreetingName(displayName: string): (r: string)
    ensures r != "" && ' ' !in r
    ensures r == "User" || (r <= displayName && (r == displayName || displayName[|r|] == ' '))
    ensures displayName == "" || displayName[0] == ' ' ==> r == "User"
  {
    if FirstWord(displayName) == "" then "User" else FirstWord(displayName)
  }

  /** The first banner's title. */
  function WelcomeTitle(displayName: string): (r: string)
    ensures |r| == 22 + |GreetingName(displayName)|
    ensures r[..21] == "Welcome to HomeBase, " && r[21..|r| - 1] == GreetingName(displayName)
    ensures r[|r| - 1] == '!'
  {
    "Welcome to HomeBase, " + GreetingName(displayName) + "!"
  }

  /**
   * A user who signed up as "first last" is greeted by the first name, as long as it is not
   * empty and has no space of its own; an empty first name gives "User".
   */
  lemma {:induction false} GreetsByFirstName(first: string, last: string)
    requires ' ' !in first
    ensures first != "" ==> GreetingName(first + " " + last) == first
    ensures first == "" ==> GreetingName(first + " " + last) == "User"
  {
    FirstWordBeforeSpace(first, last);
  }

  lemma {:induction false} FirstWordBeforeSpace(first: string, last: string)
    requires ' ' !in first
    ensures FirstWord(first + " " + last) == first
  {
    if first == [] {
      assert (first + " " + last)[0] == ' ';
    } else {
      assert (first + " " + last)[1..] == first[1..] + " " + last;
      FirstWordBeforeSpace(first[1..], last);
    }
  }

  // -----------------------------------------------------------------------------------------
  // Carousel

  /** The number of banners. */
  const BannerCount := 4

  /** `(prev + 1) % banners.length`. */
  function NextIndex(i: int, n: int): (r: int)
    requires 0 <= i < n
    ensures 0 <= r < n
  {
    (i + 1) % n
  }

  /** `(prev - 1 + banners.length) % banners.length`. */
  function PrevIndex(i: int, n: int): (r: int)
    requires 0 <= i < n
    ensures 0 <= r < n
  {
    (i - 1 + n) % n
  }

  /** `%` on a value below twice the divisor subtracts the divisor at most once. */
  lemma ModBelowTwice(x: int, n: int)
    requires 0 <= x < 2 * n
    ensures x % n == if x >= n then x - n else x
  {
    if x >= n {
      assert x == n * 1 + (x - n);
    } else {
      assert x == n * 0 + x;
    }
  }

  /** Going forward then back, or back then forward, returns to the same banner. */
  lemma NextPrevInverse(i: int, n: int)
    requires 0 <= i < n
    ensures PrevIndex(NextIndex(i, n), n) == i
    ensures NextIndex(PrevIndex(i, n), n) == i
  {
    ModBelowTwice(i + 1, n);
    ModBelowTwice(NextIndex(i, n) - 1 + n, n);
    ModBelowTwice(i - 1 + n, n);
    ModBelowTwice(PrevIndex(i, n) + 1, n);
  }

  /** The carousel: the banner on show. */
  class Carousel {
    var currentSlide: int

    /** The banner on show is one of the banners. */
    predicate Valid()
      reads this
    {
      0 <= currentSlide < BannerCount
    }

    constructor ()
      ensures currentSlide == 0 && Valid()
    {
      currentSlide := 0;
    }

    /** The next banner, wrapping from the last to the first. */
    method NextSlide()
      requires Valid()
      modifies this
      ensures Valid() && currentSlide == NextIndex(old(currentSlide), BannerCount)
    {
      currentSlide := (currentSlide + 1) % BannerCount;
    }

    /** The previous banner, wrapping from the first to the last. */
    method PrevSlide()
      requires Valid()
      modifies this
      ensures Valid() && currentSlide == PrevIndex(old(currentSlide), BannerCount)
    {
      currentSlide := (currentSlide - 1 + BannerCount) % BannerCount;
    }

    /** The five-second timer: the same step as `NextSlide`. */
    method Tick()
      requires Valid()
      modifies this
      ensures Valid() && currentSlide == NextIndex(old(currentSlide), BannerCount)
    {
      NextSlide();
    }
  }

  // -----------------------------------------------------------------------------------------
  // Featured listings and shops

  /** `listings.slice(0, 8)`: at most the first eight listings. */
  function FeaturedListings(listings: seq<Listing>): (r: seq<Listing>)
    ensures |r| <= 8 && r <= listings
    ensures |listings| >= 8 ==> |r| == 8
    ensures |listings| < 8 ==> r == listings
  {
    Take(listings, 8)
  }

  /** `shops.slice(0, 6)`: at most the first six shops. */
  function FeaturedShops(shops: seq<Shop>): (r: seq<Shop>)
    ensures |r| <= 6 && r <= shops
    ensures |shops| >= 6 ==> |r| == 6
    ensures |shops| < 6 ==> r == shops
  {
    Take(shops, 6)
  }

  /** A featured shop's item count: the listings whose `shopId` is the shop's id. */
  function ShopItemCount(listings: seq<Listing>, shopId: Id): (n: nat)
    ensures n == |set i | 0 <= i < |listings| && listings[i].shopId == Some(shopId)|
    ensures n <= |listings|
  {
    FilterLengthCountsIndices(listings, InShop(shopId));
    assert Positions(listings, InShop(shopId))
        == (set i | 0 <= i < |listings| && listings[i].shopId == Some(shopId));
    |Filter(listings, InShop(shopId))|
  }

  /**
   * The shop named on a featured listing's card: the first shop whose id is the listing's
   * `shopId`; a listing without one names no shop.
   */
  function CardShop(shops: seq<Shop>, listing: Listing): (r: Option<Shop>)
    ensures r.None? <==> listing.shopId.None? || forall s :: s in shops ==> s.id != listing.shopId.value
    ensures r.Some? ==> r.value in shops && Some(r.value.id) == listing.shopId
    ensures r.Some? ==>
      exists i :: 0 <= i < |shops| && shops[i] == r.value &&
        forall j :: 0 <= j < i ==> Some(shops[j].id) != listing.shopId
  {
    if listing.shopId.None? then None
    else
      var r := FindByKey(shops, ShopId, listing.shopId.value);
      assert r.None? <==> forall s :: s in shops ==> s.id != listing.shopId.value by {
        if r.None? {
          forall s | s in shops ensures s.id != listing.shopId.value {
            var j :| 0 <= j < |shops| && shops[j] == s;
            assert ShopId(shops[j]) != listing.shopId.value;
          }
        }
      }
      if r.Some? then
        var i := IndexOfKey(shops, ShopId, listing.shopId.value);
        assert forall j :: 0 <= j < i ==> ShopId(shops[j]) != listing.shopId.value;
        r
      else r
  }

  /** `shop?.shopName || product.owner`. */
  function CardLabel(shops: seq<Shop>, listing: Listing): (r: string)
    ensures r == listing.owner ||
      (r != "" && exists s :: s in shops && Some(s.id) == listing.shopId && s.shopName == r)
    ensures (listing.shopId.None? || forall s :: s in shops ==> Some(s.id) != listing.shopId) ==>
      r == listing.owner
    ensures forall i :: 0 <= i < |shops| && Some(shops[i].id) == listing.shopId &&
                        (forall j :: 0 <= j < i ==> Some(shops[j].id) != listing.shopId) ==>
      r == if shops[i].shopName != "" then shops[i].shopName else listing.owner
  {
    var shop := CardShop(shops, listing);
    if shop.Some? && shop.value.shopName != "" then shop.value.shopName else listing.owner
  }
}
