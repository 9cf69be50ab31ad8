/**
 * The public page of one shop (`ShopFrontPage`): the shop named by the route, its items split
 * into products and services, and whether it is open at the visitor's local time. The time is
 * a parameter: the weekday `day` (0 for Sunday, as `Date.getDay` numbers them) and the minutes
 * since midnight `now`.
 */
module ShopFront {
  import opened Wrappers
  import opened Collections
  import opened Clock
  import opened Entities
  import opened Storage

  /** `shops?.find(s => s.id === shopId)`. */
  function FindShop(shops: seq<Shop>, shopId: Id): (r: Option<Shop>)
    ensures r.Some? ==> r.value in shops && r.value.id == shopId
    ensures r.None? <==> forall s :: s in shops ==> s.id != shopId
    ensures r.Some? ==>
      exists i :: 0 <= i < |shops| && shops[i] == r.value &&
        forall j :: 0 <= j < i ==> shops[j].id != shopId
  {
    FindByKey(shops, ShopId, shopId)
  }

  /**
   * The items effect: for a non-empty route id, exactly the listings of that shop in their
   * order; for an empty one the effect does not run and the previous items stay.
   */
  function ShopItems(listings: seq<Listing>, shopId: Id, previous: seq<Listing>): (r: seq<Listing>)
    ensures shopId == "" ==> r == previous
    ensures shopId != "" ==>
      (forall l :: l in r <==> l in listings && l.shopId == Some(shopId)) && IsSubsequence(r, listings)
    ensures shopId != "" ==>
      forall l :: multiset(r)[l] == if l.shopId == Some(shopId) then multiset(listings)[l] else 0
  {
    if shopId != "" then Filter(listings, InShop(shopId)) else previous
  }

  function OfKind(kind: ListingType): Listing -> bool
  {
    (l: Listing) => l.kind == Some(kind)
  }

  /** `shopProducts.filter(p => p.type === 'product')`. */
  function Products(items: seq<Listing>): (r: seq<Listing>)
    ensures forall l :: l in r <==> l in items && l.kind == Some(Product)
    ensures forall l :: multiset(r)[l] == if l.kind == Some(Product) then multiset(items)[l] else 0
    ensures IsSubsequence(r, items)
  {
    Filter(items, OfKind(Product))
  }

  /** `shopProducts.filter(p => p.type === 'service')`. */
  function Services(items: seq<Listing>): (r: seq<Listing>)
    ensures forall l :: l in r <==> l in items && l.kind == Some(Service)
    ensures forall l :: multiset(r)[l] == if l.kind == Some(Service) then multiset(items)[l] else 0
    ensures IsSubsequence(r, items)
  {
    Filter(items, OfKind(Service))
  }

  function Untyped(): Listing -> bool
  {
    (l: Listing) => l.kind.None?
  }

  /** Products and services share no item, and an item without a type is in neither. */
  lemma ProductsAndServicesDisjoint(items: seq<Listing>)
    ensures forall l :: !(l in Products(items) && l in Services(items))
    ensures forall l :: l in items && l.kind.None? ==> l !in Products(items) && l !in Services(items)
  {
  }

  /** Products, services and untyped items together account for every item exactly once. */
  lemma {:induction false} KindsPartitionItems(items: seq<Listing>)
    ensures |Products(items)| + |Services(items)| + |Filter(items, Untyped())| == |items|
  {
    var product, service, untyped := OfKind(Product), OfKind(Service), Untyped();
    forall x | x in items
      ensures (product(x) && !service(x) && !untyped(x)) || (!product(x) && service(x) && !untyped(x)) ||
              (!product(x) && !service(x) && untyped(x))
    {
      match x.kind {
        case None =>
        case Some(k) => assert k == Product || k == Service;
      }
    }
    FilterThreeWay(items, product, service, untyped);
  }

  /** `['sunday', 'monday', …, 'saturday']`, indexed by `Date.getDay`. */
  const DayNames: seq<string> :=
    ["sunday", "monday", "tuesday", "wednesday", "thursday", "friday", "saturday"]

  /**
   * `isOpen(operatingHours)`. Without hours the shop counts as open; without an entry for
   * today it is closed. An entry lacking "open" or "close" makes the `split` call throw, the
   * `Err` here. Otherwise the shop is open from its opening minute up to, but not including,
   * its closing minute; a time that does not read as a number (NaN) makes every comparison
   * false, so the shop is closed.
   */
  function IsOpen(hours: Option<Hours>, day: nat, now: int): (r: Result<bool>)
    requires day < 7
    ensures hours.None? ==> r == Ok(true)
    ensures hours.Some? && DayNames[day] !in hours.value ==> r == Ok(false)
    ensures r.Err? <==>
      hours.Some? && DayNames[day] in hours.value &&
      ("open" !in hours.value[DayNames[day]] || "close" !in hours.value[DayNames[day]])
    ensures r == Ok(true) <==>
      hours.None? ||
      (DayNames[day] in hours.value &&
       "open" in hours.value[DayNames[day]] && "close" in hours.value[DayNames[day]] &&
       var open := ClockMinutes(hours.value[DayNames[day]]["open"]);
       var close := ClockMinutes(hours.value[DayNames[day]]["close"]);
       open.Some? && close.Some? && open.value <= now < close.value)
  {
    if hours.None? then Ok(true)
    else
      var dayName := DayNames[day];
      if dayName !in hours.value then Ok(false)
      else
        var today := hours.value[dayName];
        if "open" !in today || "close" !in today then Err("TypeError")
        else
          var openTime := ClockMinutes(today["open"]);
          var closeTime := ClockMinutes(today["close"]);
          if openTime.None? || closeTime.None? then Ok(false)
          else Ok(now >= openTime.value && now < closeTime.value)
  }

  /**
   * For "HH:MM" opening and closing times the check is plain minute arithmetic: open from
   * the opening minute, closed from the closing minute on.
   */
  lemma IsOpenWithClockTimes(hours: Hours, day: nat, now: int)
    requires day < 7 && DayNames[day] in hours
    requires "open" in hours[DayNames[day]] && "close" in hours[DayNames[day]]
    requires IsHHMM(hours[DayNames[day]]["open"]) && IsHHMM(hours[DayNames[day]]["close"])
    ensures IsOpen(Some(hours), day, now) ==
      Ok(HHMMValue(hours[DayNames[day]]["open"]) <= now < HHMMValue(hours[DayNames[day]]["close"]))
    ensures now == HHMMValue(hours[DayNames[day]]["close"]) ==> IsOpen(Some(hours), day, now) == Ok(false)
  {
    ClockMinutesOfHHMM(hours[DayNames[day]]["open"]);
    ClockMinutesOfHHMM(hours[DayNames[day]]["close"]);
  }
}
