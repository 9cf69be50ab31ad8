/**
 * The rentals controller (`RentalsContext`): creates rental requests, updates their status or
 * data in the store, and keeps two views in step with it: the requests the signed-in user made
 * (matched by renter e-mail) and the requests the user received (matched by owner e-mail).
 * It also answers whether a date range clashes with an approved or pending request for the
 * same tool, and lists the approved ranges of a tool.
 *
 * Dates are day numbers; an absent end date (or an empty one) falls back to the start date.
 * No status state machine is enforced: any status may replace any other.
 */
module Rentals {
  import opened Wrappers
  import opened Collections
  import opened Entities
  import opened Storage

  /** `end || start`: the last day of a range whose end may be absent. */
  function LastDay(start: int, end: Option<int>): int
  {
    end.GetOr(start)
  }

  /** `!(requestEnd < rentalStart || requestStart > rentalEnd)`: closed ranges that meet. */
  predicate Overlaps(requestStart: int, requestEnd: int, rentalStart: int, rentalEnd: int)
  {
    !(requestEnd < rentalStart || requestStart > rentalEnd)
  }

  /** `excludeRequestId && rental.id === excludeRequestId`; an empty id excludes nothing. */
  predicate Excluded(exclude: Option<Id>, id: Id)
  {
    exclude.Some? && exclude.value != "" && id == exclude.value
  }

  /** A status that reserves the tool: `approved` or `pending`. */
  predicate Reserving(s: Status)
  {
    s == Approved || s == Pending
  }

  /** The first filter of `checkDateConflict`: same tool, approved or pending. */
  function ReservesTool(toolId: Id): RentalRequest -> bool
  {
    (r: RentalRequest) => r.toolId == toolId && Reserving(r.status)
  }

  /** The `some` callback of `checkDateConflict`. */
  function ClashesWith(start: int, end: Option<int>, exclude: Option<Id>): RentalRequest -> bool
  {
    (r: RentalRequest) =>
      !Excluded(exclude, r.id) &&
      Overlaps(start, LastDay(start, end), r.startDate, LastDay(r.startDate, r.endDate))
  }

  /** Everything that makes one stored request clash with the range asked about. */
  predicate Conflicts(r: RentalRequest, toolId: Id, start: int, end: Option<int>, exclude: Option<Id>)
  {
    r.toolId == toolId && Reserving(r.status) && !Excluded(exclude, r.id) &&
    Overlaps(start, LastDay(start, end), r.startDate, LastDay(r.startDate, r.endDate))
  }

  /**
   * `checkDateConflict` over the stored requests: true exactly when some request for the same
   * tool, approved or pending, not the excluded one, shares a day with `[start, end || start]`.
   */
  function CheckDateConflict(rentals: seq<RentalRequest>, toolId: Id, start: int, end: Option<int>,
                             exclude: Option<Id>): (b: bool)
    ensures b <==> exists x :: x in rentals && Conflicts(x, toolId, start, end, exclude)
  {
    var toolRentals := Filter(rentals, ReservesTool(toolId));
    var b := Any(toolRentals, ClashesWith(start, end, exclude));
    assert b ==> exists x :: x in rentals && Conflicts(x, toolId, start, end, exclude) by {
      if b {
        var j :| 0 <= j < |toolRentals| && ClashesWith(start, end, exclude)(toolRentals[j]);
        assert toolRentals[j] in rentals;
        assert Conflicts(toolRentals[j], toolId, start, end, exclude);
      }
    }
    assert (exists x :: x in rentals && Conflicts(x, toolId, start, end, exclude)) ==> b by {
      if exists x :: x in rentals && Conflicts(x, toolId, start, end, exclude) {
        var x :| x in rentals && Conflicts(x, toolId, start, end, exclude);
        assert x in toolRentals;
        var j :| 0 <= j < |toolRentals| && toolRentals[j] == x;
        assert ClashesWith(start, end, exclude)(toolRentals[j]);
      }
    }
    b
  }

  /** Day `d` lies in the closed range `[s, e]`. */
  predicate InRange(d: int, s: int, e: int)
  {
    s <= d <= e
  }

  /**
   * Two closed ranges that are not empty meet in the sense of `checkDateConflict` exactly when
   * some day lies in both.
   */
  lemma OverlapsIffSharedDay(s1: int, e1: int, s2: int, e2: int)
    requires s1 <= e1 && s2 <= e2
    ensures Overlaps(s1, e1, s2, e2) <==> exists d :: InRange(d, s1, e1) && InRange(d, s2, e2)
  {
    if Overlaps(s1, e1, s2, e2) {
      var d := if s1 <= s2 then s2 else s1;
      assert InRange(d, s1, e1) && InRange(d, s2, e2);
    }
  }

  /** A request that ends on the day a reserving request starts clashes with it. */
  lemma TouchingRangesConflict(rentals: seq<RentalRequest>, x: RentalRequest, start: int)
    requires x in rentals && Reserving(x.status)
    requires start <= x.startDate <= LastDay(x.startDate, x.endDate)
    ensures CheckDateConflict(rentals, x.toolId, start, Some(x.startDate), None)
  {
    assert Conflicts(x, x.toolId, start, Some(x.startDate), None);
  }

  /** Declined, cancelled and completed requests never cause a clash, wherever they are stored. */
  lemma InactiveRequestsNeverConflict(before: seq<RentalRequest>, r: RentalRequest,
                                      after: seq<RentalRequest>, toolId: Id, start: int,
                                      end: Option<int>, exclude: Option<Id>)
    requires !Reserving(r.status)
    ensures CheckDateConflict(before + [r] + after, toolId, start, end, exclude) ==
            CheckDateConflict(before + after, toolId, start, end, exclude)
  {
    Unconflicting(before, r, after, toolId, start, end, exclude);
  }

  /** The request named by `excludeRequestId` never causes a clash, wherever it is stored. */
  lemma ExcludedRequestNeverConflicts(before: seq<RentalRequest>, r: RentalRequest,
                                      after: seq<RentalRequest>, start: int, end: Option<int>)
    requires r.id != ""
    ensures CheckDateConflict(before + [r] + after, r.toolId, start, end, Some(r.id)) ==
            CheckDateConflict(before + after, r.toolId, start, end, Some(r.id))
  {
    Unconflicting(before, r, after, r.toolId, start, end, Some(r.id));
  }

  /** Inserting a request that does not clash leaves the answer unchanged. */
  lemma Unconflicting(before: seq<RentalRequest>, r: RentalRequest, after: seq<RentalRequest>,
                      toolId: Id, start: int, end: Option<int>, exclude: Option<Id>)
    requires !Conflicts(r, toolId, start, end, exclude)
    ensures CheckDateConflict(before + [r] + after, toolId, start, end, exclude) ==
            CheckDateConflict(before + after, toolId, start, end, exclude)
  {
    var s, t := before + [r] + after, before + after;
    assert forall x :: x in s <==> x in before || x == r || x in after;
    assert forall x :: x in t <==> x in before || x in after;
  }

  /** One entry of `getUnavailableDates`. */
  datatype DateRange = DateRange(start: int, end: int, status: Status)

  /** `r.toolId === toolId && r.status === 'approved'`. */
  function ApprovedFor(toolId: Id): RentalRequest -> bool
  {
    (r: RentalRequest) => r.toolId == toolId && r.status == Approved
  }

  /** `{ start, end: endDate || startDate, status }` for each request, in order. */
  function RangesOf(s: seq<RentalRequest>): (r: seq<DateRange>)
    ensures |r| == |s|
    ensures forall i :: 0 <= i < |s| ==>
      r[i].start == s[i].startDate && r[i].end == LastDay(s[i].startDate, s[i].endDate) &&
      r[i].status == s[i].status
  {
    if s == [] then []
    else [DateRange(s[0].startDate, LastDay(s[0].startDate, s[0].endDate), s[0].status)] + RangesOf(s[1..])
  }

  /**
   * `getUnavailableDates(toolId)`: one range per approved request for the tool, in stored
   * order, ending on the request's end date or, without one, on its start date.
   */
  function GetUnavailableDates(rentals: seq<RentalRequest>, toolId: Id): (r: seq<DateRange>)
    ensures |r| == |Filter(rentals, ApprovedFor(toolId))|
    ensures forall i :: 0 <= i < |r| ==>
      var x := Filter(rentals, ApprovedFor(toolId))[i];
      x in rentals && x.toolId == toolId && x.status == Approved &&
      r[i] == DateRange(x.startDate, LastDay(x.startDate, x.endDate), Approved)
  {
    RangesOf(Filter(rentals, ApprovedFor(toolId)))
  }

  /** An approved request for the tool that reserves it is always reported as unavailable. */
  lemma ApprovedRequestIsUnavailable(rentals: seq<RentalRequest>, x: RentalRequest)
    requires x in rentals && x.status == Approved
    ensures DateRange(x.startDate, LastDay(x.startDate, x.endDate), Approved)
              in GetUnavailableDates(rentals, x.toolId)
  {
    var approved := Filter(rentals, ApprovedFor(x.toolId));
    assert x in approved;
    var i :| 0 <= i < |approved| && approved[i] == x;
    assert RangesOf(approved)[i] == DateRange(x.startDate, LastDay(x.startDate, x.endDate), Approved);
  }

  class RentalsContext {
    const store: LocalStorageService
    /** The requests the signed-in user made, as renter. */
    var userRentalRequests: seq<RentalRequest>
    /** The requests the signed-in user received, as owner. */
    var receivedRentalRequests: seq<RentalRequest>
    var loading: bool

    constructor (store: LocalStorageService)
      ensures this.store == store
      ensures userRentalRequests == [] && receivedRentalRequests == [] && loading
    {
      this.store := store;
      userRentalRequests := [];
      receivedRentalRequests := [];
      loading := true;
    }

    /**
     * The loading effect: initializes the store; with no user both views are empty, otherwise
     * they are the stored requests the user made and received, matched by e-mail.
     */
    method Load(currentUser: Option<User>)
      modifies this, store
      ensures store.mock == old(store.mock)
      ensures store.initialized
      ensures store.storage == if old(store.initialized) then old(store.storage)
                               else Seeded(old(store.storage), store.mock)
      ensures currentUser.None? ==> userRentalRequests == [] && receivedRentalRequests == []
      ensures currentUser.Some? ==>
        userRentalRequests == store.GetRentalsByUserId(currentUser.value.email) &&
        receivedRentalRequests == store.GetRentalsByOwner(currentUser.value.email)
      ensures !loading
    {
      store.Initialize();
      if currentUser.None? {
        userRentalRequests := [];
        receivedRentalRequests := [];
        loading := false;
        return;
      }
      userRentalRequests := store.GetRentalsByUserId(currentUser.value.email);
      receivedRentalRequests := store.GetRentalsByOwner(currentUser.value.email);
      loading := false;
    }

    /** `getUserRentals()`. */
    function GetUserRentals(): (r: seq<RentalRequest>)
      reads this
      ensures r == userRentalRequests
    {
      userRentalRequests
    }

    /**
     * Stores the request under the generated id `newId` and puts it in front of the user's
     * view if the user is its renter, and in front of the received view if the user is its
     * owner. No clash check is made. With a fresh id the request is appended to the store.
     */
    method AddRentalRequest(currentUser: Option<User>, request: RentalRequest, newId: Id)
      returns (emailsSent: bool)
      modifies this, store
      ensures store.mock == MockAfterWrite(old(store.storage), old(store.mock), store.storage)
      ensures store.storage == old(store.storage).(rentals :=
        Some(Upsert(old(store.GetRentals()), request.(id := newId), RentalId)))
      ensures store.initialized == old(store.initialized)
      ensures userRentalRequests ==
        if currentUser.Some? && request.renterEmail == currentUser.value.email
        then [request.(id := newId)] + old(userRentalRequests) else old(userRentalRequests)
      ensures receivedRentalRequests ==
        if currentUser.Some? && request.ownerEmail == currentUser.value.email
        then [request.(id := newId)] + old(receivedRentalRequests) else old(receivedRentalRequests)
      ensures (forall r :: r in old(store.GetRentals()) ==> r.id != newId) ==>
        store.GetRentals() == old(store.GetRentals()) + [request.(id := newId)]
      ensures store.GetRentalById(newId) == Some(request.(id := newId))
      ensures emailsSent
    {
      var newRequest := request.(id := newId);
      store.SaveRental(newRequest);
      if currentUser.Some? && newRequest.renterEmail == currentUser.value.email {
        userRentalRequests := [newRequest] + userRentalRequests;
      }
      if currentUser.Some? && newRequest.ownerEmail == currentUser.value.email {
        receivedRentalRequests := [newRequest] + receivedRentalRequests;
      }
      emailsSent := true;
      if forall r :: r in old(store.GetRentals()) ==> r.id != newId {
        UpsertNew(old(store.GetRentals()), newRequest, RentalId);
      }
    }

    /**
     * Sets the status of the stored request `id` to `status`, whatever it was, and replaces
     * that request in both views. An unknown id throws "Request not found" and changes nothing.
     */
    method UpdateRentalStatus(id: Id, status: Status) returns (outcome: Outcome)
      modifies this, store
      ensures store.mock == MockAfterWrite(old(store.storage), old(store.mock), store.storage)
      ensures outcome.Fail? <==> old(store.GetRentalById(id)).None?
      ensures outcome.Fail? ==>
        outcome.error == "Request not found" && store.storage == old(store.storage) &&
        userRentalRequests == old(userRentalRequests) &&
        receivedRentalRequests == old(receivedRentalRequests)
      ensures outcome.Pass? ==>
        var i := IndexOfKey(old(store.GetRentals()), RentalId, id);
        var updated := old(store.GetRentals())[i].(status := status);
        && store.storage == old(store.storage).(rentals := Some(old(store.GetRentals())[i := updated]))
        && userRentalRequests == ReplaceByKey(old(userRentalRequests), RentalId, id, updated)
        && receivedRentalRequests == ReplaceByKey(old(receivedRentalRequests), RentalId, id, updated)
      ensures store.initialized == old(store.initialized)
    {
      var request := store.GetRentalById(id);
      if request.None? {
        return Fail("Request not found");
      }
      var updated := request.value.(status := status);
      ghost var before := store.GetRentals();
      UpsertExisting(before, updated, RentalId, IndexOfKey(before, RentalId, id));
      store.SaveRental(updated);
      userRentalRequests := ReplaceByKey(userRentalRequests, RentalId, id, updated);
      receivedRentalRequests := ReplaceByKey(receivedRentalRequests, RentalId, id, updated);
      outcome := Pass;
    }

    /**
     * Merges `data` into the stored request `id`, saves the merged record (by its own id) and
     * replaces the request `id` in both views. An unknown id throws "Request not found" and
     * changes nothing. A patch that keeps the id changes only that stored record.
     */
    method UpdateRentalData(id: Id, data: RentalPatch) returns (outcome: Outcome)
      modifies this, store
      ensures store.mock == MockAfterWrite(old(store.storage), old(store.mock), store.storage)
      ensures outcome.Fail? <==> old(store.GetRentalById(id)).None?
      ensures outcome.Fail? ==>
        outcome.error == "Request not found" && store.storage == old(store.storage) &&
        userRentalRequests == old(userRentalRequests) &&
        receivedRentalRequests == old(receivedRentalRequests)
      ensures outcome.Pass? ==>
        var updated := MergeRental(old(store.GetRentalById(id)).value, data);
        && store.storage == old(store.storage).(rentals :=
             Some(Upsert(old(store.GetRentals()), updated, RentalId)))
        && userRentalRequests == ReplaceByKey(old(userRentalRequests), RentalId, id, updated)
        && receivedRentalRequests == ReplaceByKey(old(receivedRentalRequests), RentalId, id, updated)
      ensures outcome.Pass? && (data.id.None? || data.id == Some(id)) ==>
        var i := IndexOfKey(old(store.GetRentals()), RentalId, id);
        store.GetRentals() == old(store.GetRentals())[i := MergeRental(old(store.GetRentals())[i], data)]
      ensures store.initialized == old(store.initialized)
    {
      var request := store.GetRentalById(id);
      if request.None? {
        return Fail("Request not found");
      }
      var updated := MergeRental(request.value, data);
      ghost var before := store.GetRentals();
      if data.id.None? || data.id == Some(id) {
        UpsertExisting(before, updated, RentalId, IndexOfKey(before, RentalId, id));
      }
      store.SaveRental(updated);
      userRentalRequests := ReplaceByKey(userRentalRequests, RentalId, id, updated);
      receivedRentalRequests := ReplaceByKey(receivedRentalRequests, RentalId, id, updated);
      outcome := Pass;
    }
  }
}
