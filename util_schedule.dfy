/** Weekly availability of promotions and menu items (src/util/util.tsx):
    a schedule lists time slots per weekday, and something is available now
    when it has no schedule, when today has no slots, or when the current
    moment falls inside one of today's slots, bounds included. */
module Schedule {
  import opened Wrappers

  /** One "HH:MM"–"HH:MM" slot, its hour and minute fields already parsed. */
  datatype TimeSlot = TimeSlot(startHour: int, startMinute: int, endHour: int, endMinute: int)

  /** IGET_RESTAURANT_PROMOTION_AVAILABILITY and IGET_RESTAURANT_ITEM_AVAILABILITY_HOURS. */
  datatype WeekAvailability = WeekAvailability(
    monday: seq<TimeSlot>, tuesday: seq<TimeSlot>, wednesday: seq<TimeSlot>, thursday: seq<TimeSlot>,
    friday: seq<TimeSlot>, saturday: seq<TimeSlot>, sunday: seq<TimeSlot>)

  /** The current moment as the checks read it: `getDay` (0 = Sunday) and the
      milliseconds elapsed since local midnight. */
  datatype Moment = Moment(weekday: int, msOfDay: int)

  const MsPerMinute := 60000

  /** A slot's bounds fall on whole minutes: seconds and milliseconds are 0. */
  function StartMs(s: TimeSlot): int {
    (s.startHour * 60 + s.startMinute) * MsPerMinute
  }

  function EndMs(s: TimeSlot): int {
    (s.endHour * 60 + s.endMinute) * MsPerMinute
  }

  /** `isWithinInterval`: both bounds inclusive. */
  predicate Within(s: TimeSlot, now: Moment) {
    StartMs(s) <= now.msOfDay <= EndMs(s)
  }

  /** The week as a table indexed by `getDay`. */
  function WeekTable(a: WeekAvailability): seq<seq<TimeSlot>> {
    [a.sunday, a.monday, a.tuesday, a.wednesday, a.thursday, a.friday, a.saturday]
  }

  /** `getPromotionDayData` / `getDayData`: today's slots, none for a day number
      outside 0..6. */
  function DayData(a: WeekAvailability, weekday: int): (r: seq<TimeSlot>)
    ensures 0 <= weekday < 7 ==> r == WeekTable(a)[weekday]
    ensures !(0 <= weekday < 7) ==> r == []
  {
    match weekday
    case 1 => a.monday
    case 2 => a.tuesday
    case 3 => a.wednesday
    case 4 => a.thursday
    case 5 => a.friday
    case 6 => a.saturday
    case 0 => a.sunday
    case _ => []
  }

  /** What the availability checks decide. */
  predicate Available(availability: Option<WeekAvailability>, now: Moment) {
    availability.None? ||
    var slots := DayData(availability.value, now.weekday);
    slots == [] || exists i :: 0 <= i < |slots| && Within(slots[i], now)
  }

  /** `isWithinInterval` rejects an interval that ends before it starts. */
  predicate SlotsWellFormed(availability: Option<WeekAvailability>, now: Moment) {
    availability.Some? ==>
      var slots := DayData(availability.value, now.weekday);
      forall i :: 0 <= i < |slots| ==> StartMs(slots[i]) <= EndMs(slots[i])
  }

  /** `isPromotionAvailable` (util.tsx:23-61); `isItemAvailable` (util.tsx:63-101)
      is the same code over the item schedule type. */
  method IsAvailable(availability: Option<WeekAvailability>, now: Moment) returns (r: bool)
    requires SlotsWellFormed(availability, now)
    ensures r == Available(availability, now)
  {
    if availability.None? {
      return true;
    }
    var dayTimes := DayData(availability.value, now.weekday);
    if |dayTimes| == 0 {
      return true;
    }
    var isWithinTimeSlot := false;
    var i := 0;
    while i < |dayTimes|
      invariant 0 <= i <= |dayTimes|
      invariant isWithinTimeSlot <==> exists j :: 0 <= j < i && Within(dayTimes[j], now)
    {
      var startDateTime := StartMs(dayTimes[i]);
      var endDateTime := EndMs(dayTimes[i]);
      var isWithin := startDateTime <= now.msOfDay <= endDateTime;
      if isWithin && !isWithinTimeSlot {
        isWithinTimeSlot := true;
      }
      i := i + 1;
    }
    return isWithinTimeSlot;
  }

  /** A slot ending at 17:00 still covers 17:00:00.000 but no longer covers
      17:00:00.001: the current moment carries seconds and milliseconds while
      the slot's end does not. Only today's slots matter. */
  lemma SlotEndIsInclusiveToTheMillisecond(a: WeekAvailability, weekday: int)
    requires 0 <= weekday < 7
    requires DayData(a, weekday) == [TimeSlot(9, 0, 17, 0)]
    ensures Available(Some(a), Moment(weekday, 17 * 60 * MsPerMinute))
    ensures !Available(Some(a), Moment(weekday, 17 * 60 * MsPerMinute + 1))
    ensures Available(Some(a), Moment(weekday, 9 * 60 * MsPerMinute))
    ensures !Available(Some(a), Moment(weekday, 9 * 60 * MsPerMinute - 1))
  {
    var slots := DayData(a, weekday);
    assert Within(slots[0], Moment(weekday, 17 * 60 * MsPerMinute));
    assert Within(slots[0], Moment(weekday, 9 * 60 * MsPerMinute));
  }
}
