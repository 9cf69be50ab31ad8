/**
 * The rental calendar (`RentalCalendar`): in availability mode an editor of open time slots,
 * in the other modes a calendar of the rental requests that are still live. The callback that
 * receives the updated slot list is modelled as the value the handlers return.
 */
module Calendar {
  import opened Wrappers
  import opened Collections
  import opened Clock
  import opened Entities

  /** An open slot: a date and two "HH:MM" times. */
  datatype TimeSlot = TimeSlot(date: string, startTime: string, endTime: string)

  datatype ViewMode = Customer | Owner | Availability

  /** A calendar entry: an open slot with its position, or a rental request. */
  datatype CalendarEvent = SlotEvent(index: nat, slot: TimeSlot) | RentalEvent(rental: RentalRequest)

  const DefaultStartTime := "09:00"
  const DefaultEndTime := "17:00"

  /** `(_, i) => i !== index` over the list: every slot except the one at `index`. */
  function WithoutIndex(slots: seq<TimeSlot>, index: int): (r: seq<TimeSlot>)
    ensures 0 <= index < |slots| ==> r == slots[..index] + slots[index + 1..]
    ensures !(0 <= index < |slots|) ==> r == slots
  {
    if slots == [] then []
    else if index == 0 then WithoutIndex(slots[1..], index - 1)
    else [slots[0]] + WithoutIndex(slots[1..], index - 1)
  }

  /** Removing a slot and putting it back at the same place gives the list back. */
  lemma {:induction false} RemoveThenInsert(slots: seq<TimeSlot>, index: int)
    requires 0 <= index < |slots|
    ensures WithoutIndex(slots, index)[..index] + [slots[index]] + WithoutIndex(slots, index)[index..] == slots
  {
    var r := WithoutIndex(slots, index);
    var before, after := slots[..index], slots[index + 1..];
    assert r == before + after;
    assert r[..index] == before;
    assert r[index..] == after;
    assert slots == before + [slots[index]] + after;
  }

  /** A request the calendar shows: neither cancelled nor declined. */
  function Live(): RentalRequest -> bool
  {
    (r: RentalRequest) => r.status != Cancelled && r.status != Declined
  }

  /** Each slot as an event, tagged with its position. */
  function SlotEvents(slots: seq<TimeSlot>): (r: seq<CalendarEvent>)
    ensures |r| == |slots|
    ensures forall i :: 0 <= i < |slots| ==> r[i] == SlotEvent(i, slots[i])
  {
    seq(|slots|, i requires 0 <= i < |slots| => SlotEvent(i, slots[i]))
  }

  function RentalEvents(rentals: seq<RentalRequest>): (r: seq<CalendarEvent>)
    ensures |r| == |rentals|
    ensures forall i :: 0 <= i < |rentals| ==> r[i] == RentalEvent(rentals[i])
  {
    if rentals == [] then [] else [RentalEvent(rentals[0])] + RentalEvents(rentals[1..])
  }

  /**
   * The `events` memo: the slots in availability mode; otherwise the live requests of the
   * user (customer mode) or received by the user (owner mode), in their order.
   */
  function Events(mode: ViewMode, slots: seq<TimeSlot>, userRequests: seq<RentalRequest>,
                  receivedRequests: seq<RentalRequest>): (r: seq<CalendarEvent>)
    ensures mode.Availability? ==> r == SlotEvents(slots)
    ensures !mode.Availability? ==>
      var source := if mode.Customer? then userRequests else receivedRequests;
      forall e :: e in r <==>
        e.RentalEvent? && e.rental in source && e.rental.status != Cancelled &&
        e.rental.status != Declined
    ensures !mode.Availability? ==>
      var live := Filter(if mode.Customer? then userRequests else receivedRequests, Live());
      |r| == |live| && forall i :: 0 <= i < |r| ==> r[i] == RentalEvent(live[i])
  {
    if mode.Availability? then SlotEvents(slots)
    else
      var rentals := if mode.Customer? then userRequests else receivedRequests;
      var live := Filter(rentals, Live());
      var r := RentalEvents(live);
      assert forall e :: e in r ==> e.RentalEvent? && e.rental in live by {
        forall e | e in r ensures e.RentalEvent? && e.rental in live {
          var i :| 0 <= i < |r| && r[i] == e;
        }
      }
      assert forall x :: x in live ==> RentalEvent(x) in r by {
        forall x | x in live ensures RentalEvent(x) in r {
          var i :| 0 <= i < |live| && live[i] == x;
          assert r[i] == RentalEvent(x);
        }
      }
      r
  }

  /**
   * For the "HH:MM" text of a time input, `addTimeSlot`'s string check refuses exactly the
   * slots that do not end after they start.
   */
  lemma RefusedIffNotLater(startTime: string, endTime: string)
    requires IsHHMM(startTime) && IsHHMM(endTime)
    ensures !LexLess(startTime, endTime) <==> HHMMValue(endTime) <= HHMMValue(startTime)
  {
    LexLessIsTimeOrder(startTime, endTime);
  }

  /** The availability editor: the slot list and the add-slot form. */
  class AvailabilityEditor {
    var slots: seq<TimeSlot>
    var showSlotModal: bool
    var selectedDate: string
    var slotStartTime: string
    var slotEndTime: string

    constructor ()
      ensures slots == [] && !showSlotModal && selectedDate == ""
      ensures slotStartTime == DefaultStartTime && slotEndTime == DefaultEndTime
    {
      slots := [];
      showSlotModal := false;
      selectedDate := "";
      slotStartTime := DefaultStartTime;
      slotEndTime := DefaultEndTime;
    }

    /** Clicking a day in availability mode opens the form for that date; otherwise nothing. */
    method DateClick(mode: ViewMode, dateStr: string)
      modifies this
      ensures mode.Availability? ==> selectedDate == dateStr && showSlotModal
      ensures !mode.Availability? ==> selectedDate == old(selectedDate) && showSlotModal == old(showSlotModal)
      ensures slots == old(slots) && slotStartTime == old(slotStartTime) && slotEndTime == old(slotEndTime)
    {
      if mode.Availability? {
        selectedDate := dateStr;
        showSlotModal := true;
      }
    }

    /**
     * Refuses a form with an empty field, or whose start is not before its end as strings,
     * and then changes nothing. Otherwise appends the slot, hands the new list to the
     * callback, closes the form and resets it to no date, 09:00 and 17:00.
     */
    method AddTimeSlot() returns (published: Option<seq<TimeSlot>>)
      modifies this
      ensures published.None? <==>
        old(selectedDate) == "" || old(slotStartTime) == "" || old(slotEndTime) == "" ||
        !LexLess(old(slotStartTime), old(slotEndTime))
      ensures published.None? ==>
        slots == old(slots) && showSlotModal == old(showSlotModal) &&
        selectedDate == old(selectedDate) && slotStartTime == old(slotStartTime) &&
        slotEndTime == old(slotEndTime)
      ensures published.Some? ==>
        && slots == old(slots) + [TimeSlot(old(selectedDate), old(slotStartTime), old(slotEndTime))]
        && published.value == slots
        && !showSlotModal && selectedDate == ""
        && slotStartTime == DefaultStartTime && slotEndTime == DefaultEndTime
    {
      if selectedDate == "" || slotStartTime == "" || slotEndTime == "" {
        return None;
      }
      if !LexLess(slotStartTime, slotEndTime) {
        return None;
      }
      var newSlot := TimeSlot(selectedDate, slotStartTime, slotEndTime);
      var updatedSlots := slots + [newSlot];
      slots := updatedSlots;
      published := Some(updatedSlots);
      showSlotModal := false;
      selectedDate := "";
      slotStartTime := DefaultStartTime;
      slotEndTime := DefaultEndTime;
    }

    /**
     * Removes the slot at `index`, keeping the rest in order (an index out of range removes
     * nothing), and hands the new list to the callback.
     */
    method RemoveTimeSlot(index: int) returns (published: seq<TimeSlot>)
      modifies this
      ensures 0 <= index < |old(slots)| ==> slots == old(slots)[..index] + old(slots)[index + 1..]
      ensures !(0 <= index < |old(slots)|) ==> slots == old(slots)
      ensures published == slots
      ensures showSlotModal == old(showSlotModal) && selectedDate == old(selectedDate)
      ensures slotStartTime == old(slotStartTime) && slotEndTime == old(slotEndTime)
    {
      var updatedSlots := WithoutIndex(slots, index);
      slots := updatedSlots;
      published := updatedSlots;
    }
  }
}
