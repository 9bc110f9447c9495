/** The begin-order page (src/components/page/beginOrder.tsx): a kiosk shared by
    two stores, each open only in its own hours. Choosing a store checks the
    current local time against that store's window and then either switches the
    kiosk's register over to the store or shows an error. The clock is an input
    (weekday, hours, minutes); the register, restaurant and router calls are
    returned as a list of actions in the order the page makes them. */
module BeginOrder {
  import Text

  const Restaurant1: string := "00f05bb8-baca-46e7-b6e1-5c81e4fd1d3f"
  const RestaurantRegister1: string := "c60d89f7-7177-4331-924e-339956dc84c1"
  const Restaurant2: string := "97f47fc8-462d-4d33-b530-0fe900048b01"
  const RestaurantRegister2: string := "aaefa4b7-f1e4-4000-b6cc-7045d95501a3"

  /** The route prefix of a restaurant's menu. */
  const RestaurantPath: string := "/restaurant"

  /** `Date.getDay()`: 0 is Sunday, 6 is Saturday. */
  type Weekday = d: int | 0 <= d < 7

  predicate IsWeekend(day: Weekday) {
    day == 0 || day == 6
  }

  // ---------------------------------------------------------------------------
  // 12-hour rendering

  /** `String.padStart(w, "0")`. */
  function PadStart(s: string, w: nat): (r: string)
    ensures |r| == if |s| >= w then |s| else w
    decreases w - |s|
  {
    if |s| >= w then s else PadStart("0" + s, w)
  }

  /** A minute below 60 pads to its two-digit form. */
  lemma MinutesPadded(mins: nat)
    requires mins < 60
    ensures PadStart(Text.NatToString(mins), 2) == Text.PadTo(mins, 2)
  {
    if mins < 10 {
      Text.NatToStringIsPadTo(mins, 1);
      assert Text.PadTo(mins / 10, 0) == [];
      assert Text.PadTo(mins / 10, 1) == Text.PadTo(0, 0) + [Text.DigitChar(0)];
    } else {
      Text.NatToStringIsPadTo(mins, 2);
    }
  }

  /** convertTo12HourFormat: minutes since midnight as "h:mmam" / "h:mmpm". */
  function ConvertTo12HourFormat(minutes: nat): (s: string)
    ensures |s| >= 6 && s[|s| - 2..] == (if minutes >= 12 * 60 then "pm" else "am")
  {
    var hours := minutes / 60;
    var mins := minutes % 60;
    var period := if hours >= 12 then "pm" else "am";
    var adjustedHours := if hours % 12 == 0 then 12 else hours % 12;
    Text.NatToString(adjustedHours) + ":" + PadStart(Text.NatToString(mins), 2) + period
  }

  /** The hour shown: midnight and noon read 12. */
  lemma TwelveHourClock(minutes: nat)
    requires minutes < 24 * 60
    ensures var s := ConvertTo12HourFormat(minutes);
            var h := minutes / 60;
            s == Text.NatToString(if h % 12 == 0 then 12 else h % 12) + ":" + Text.PadTo(minutes % 60, 2) +
                 (if h >= 12 then "pm" else "am")
  {
    MinutesPadded(minutes % 60);
  }

  /** "a:bp" with a two-character minute part and a two-character period splits back into its parts. */
  lemma SplitRendering(a1: string, b1: string, p1: string, a2: string, b2: string, p2: string)
    requires |b1| == 2 && |b2| == 2 && |p1| == 2 && |p2| == 2
    requires a1 + ":" + b1 + p1 == a2 + ":" + b2 + p2
    ensures a1 == a2 && b1 == b2 && p1 == p2
  {
    var s := a1 + ":" + b1 + p1;
    assert |a1| == |a2|;
    assert a1 == s[..|a1|] == a2;
    assert b1 == s[|a1| + 1..|a1| + 3] == b2;
    assert p1 == s[|a1| + 3..] == p2;
  }

  /** The hour of the day is fixed by the 12-hour clock reading and the period. */
  lemma HourFromClock(h1: nat, h2: nat)
    requires h1 < 24 && h2 < 24 && (h1 >= 12 <==> h2 >= 12)
    requires (if h1 % 12 == 0 then 12 else h1 % 12) == (if h2 % 12 == 0 then 12 else h2 % 12)
    ensures h1 == h2
  {
  }

  /** Within a day, different minutes render differently: the rendering names the minute. */
  lemma {:induction false} TwelveHourFormatInjective(m1: nat, m2: nat)
    requires m1 < 24 * 60 && m2 < 24 * 60
    ensures ConvertTo12HourFormat(m1) == ConvertTo12HourFormat(m2) <==> m1 == m2
  {
    if ConvertTo12HourFormat(m1) == ConvertTo12HourFormat(m2) {
      TwelveHourClock(m1);
      TwelveHourClock(m2);
      var h1, h2 := m1 / 60, m2 / 60;
      var c1 := if h1 % 12 == 0 then 12 else h1 % 12;
      var c2 := if h2 % 12 == 0 then 12 else h2 % 12;
      var p1, p2 := (if h1 >= 12 then "pm" else "am"), (if h2 >= 12 then "pm" else "am");
      SplitRendering(Text.NatToString(c1), Text.PadTo(m1 % 60, 2), p1, Text.NatToString(c2), Text.PadTo(m2 % 60, 2), p2);
      Text.NatToStringInjective(c1, c2);
      Text.PadToOrder(m1 % 60, m2 % 60, 2);
      HourFromClock(h1, h2);
    }
  }

  /** A concrete rendering, from its hour text and minute text. */
  lemma Renders(minutes: nat, hourText: string, minuteText: string, s: string)
    requires minutes < 24 * 60
    requires Text.NatToString(if (minutes / 60) % 12 == 0 then 12 else (minutes / 60) % 12) == hourText
    requires Text.PadTo(minutes % 60, 2) == minuteText
    requires s == hourText + ":" + minuteText + (if minutes / 60 >= 12 then "pm" else "am")
    ensures ConvertTo12HourFormat(minutes) == s
  {
    TwelveHourClock(minutes);
  }

  lemma MidnightReadsTwelve()
    ensures ConvertTo12HourFormat(0) == "12:00am"
  {
    assert Text.NatToString(12) == "12";
    assert Text.PadTo(0, 2) == "00";
    assert "12" + ":" + "00" + "am" == "12:00am";
    Renders(0, "12", "00", "12:00am");
  }

  lemma QuarterToOneReadsTwelve()
    ensures ConvertTo12HourFormat(765) == "12:45pm"
  {
    assert Text.NatToString(12) == "12";
    assert Text.PadTo(45, 2) == "45";
    assert "12" + ":" + "45" + "pm" == "12:45pm";
    Renders(765, "12", "45", "12:45pm");
  }

  lemma FivePm()
    ensures ConvertTo12HourFormat(17 * 60) == "5:00pm"
  {
    assert Text.NatToString(5) == "5";
    assert Text.PadTo(0, 2) == "00";
    assert "5" + ":" + "00" + "pm" == "5:00pm";
    Renders(17 * 60, "5", "00", "5:00pm");
  }

  lemma NoonReadsTwelve()
    ensures ConvertTo12HourFormat(12 * 60) == "12:00pm"
  {
    assert Text.NatToString(12) == "12";
    assert Text.PadTo(0, 2) == "00";
    assert "12" + ":" + "00" + "pm" == "12:00pm";
    Renders(12 * 60, "12", "00", "12:00pm");
  }

  lemma QuarterPastNinePm()
    ensures ConvertTo12HourFormat(21 * 60 + 15) == "9:15pm"
  {
    assert Text.NatToString(9) == "9";
    assert Text.PadTo(15, 2) == "15";
    assert "9" + ":" + "15" + "pm" == "9:15pm";
    Renders(21 * 60 + 15, "9", "15", "9:15pm");
  }

  // ---------------------------------------------------------------------------
  // Opening hours

  /** Store 1 opens at noon on weekends and at 5pm on weekdays. */
  function Store1Start(day: Weekday): nat {
    if IsWeekend(day) then 12 * 60 else 17 * 60
  }

  const Store1End: nat := 21 * 60 + 15

  /** Both bounds are inclusive. */
  predicate Store1Open(day: Weekday, currentTimeInMinutes: int) {
    Store1Start(day) <= currentTimeInMinutes <= Store1End
  }

  /** The `switch` over the weekday for store 2. */
  predicate Store2Open(day: Weekday, currentTimeInMinutes: int) {
    match day
    case 0 | 6 => 8 * 60 <= currentTimeInMinutes <= 15 * 60 + 30
    case 1 | 2 => 8 * 60 + 30 <= currentTimeInMinutes <= 14 * 60 + 30
    case _ => 8 * 60 + 30 <= currentTimeInMinutes <= 14 * 60 + 30
  }

  /** The published hours of each store, in minutes since midnight: store 2
      8:00am-3:30pm on weekends and 8:30am-2:30pm on weekdays, store 1
      12:00pm-9:15pm on weekends and 5:00pm-9:15pm on weekdays. */
  function Hours(store: nat, day: Weekday): (nat, nat)
    requires store == 1 || store == 2
  {
    if store == 1 then (if IsWeekend(day) then (720, 1275) else (1020, 1275))
    else (if IsWeekend(day) then (480, 930) else (510, 870))
  }

  /** Each check accepts exactly the published hours, ends included. */
  lemma OpenExactlyInPublishedHours(day: Weekday, t: int)
    ensures Store1Open(day, t) <==> Hours(1, day).0 <= t <= Hours(1, day).1
    ensures Store2Open(day, t) <==> Hours(2, day).0 <= t <= Hours(2, day).1
  {
  }

  // ---------------------------------------------------------------------------
  // Choosing a store

  datatype StoreAction =
    | DisconnectRegister(registerId: string)
    | SelectRestaurant(restaurantId: string)
    | Wait(milliseconds: nat)
    | ConnectRegister(registerId: string)
    | Navigate(path: string)
    | ShowError(message: string)

  /** Hand the kiosk to a store: let go of the other store's register first. */
  function SwitchTo(other: string, restaurant: string, register: string): seq<StoreAction> {
    [DisconnectRegister(other), SelectRestaurant(restaurant), Wait(1000), ConnectRegister(register),
     Navigate(RestaurantPath + "/" + restaurant)]
  }

  function Store1ClosedMessage(day: Weekday): string {
    "This store is only open between " + ConvertTo12HourFormat(Store1Start(day)) + " and 9:15pm."
  }

  const Store2ClosedMessage: string := "This store is currently closed. Please check our operating hours."

  /** onClickStore1 */
  function OnClickStore1(day: Weekday, hours: nat, minutes: nat): (actions: seq<StoreAction>)
    ensures Store1Open(day, hours * 60 + minutes) ==>
              actions == SwitchTo(RestaurantRegister2, Restaurant1, RestaurantRegister1)
    ensures !Store1Open(day, hours * 60 + minutes) ==>
              actions == [ShowError(Store1ClosedMessage(day))]
  {
    var currentTimeInMinutes := hours * 60 + minutes;
    if Store1Start(day) <= currentTimeInMinutes && currentTimeInMinutes <= Store1End then
      SwitchTo(RestaurantRegister2, Restaurant1, RestaurantRegister1)
    else [ShowError(Store1ClosedMessage(day))]
  }

  /** onClickStore2 */
  function OnClickStore2(day: Weekday, hours: nat, minutes: nat): (actions: seq<StoreAction>)
    ensures Store2Open(day, hours * 60 + minutes) ==>
              actions == SwitchTo(RestaurantRegister1, Restaurant2, RestaurantRegister2)
    ensures !Store2Open(day, hours * 60 + minutes) ==> actions == [ShowError(Store2ClosedMessage)]
  {
    var currentTimeInMinutes := hours * 60 + minutes;
    var isOpen := Store2Open(day, currentTimeInMinutes);
    if isOpen then SwitchTo(RestaurantRegister1, Restaurant2, RestaurantRegister2)
    else [ShowError(Store2ClosedMessage)]
  }

  predicate TouchesRegister(a: StoreAction) {
    a.DisconnectRegister? || a.ConnectRegister?
  }

  /** A closed store changes no register; an open one connects its own register only
      after disconnecting the other store's, so the two are never connected together. */
  lemma RegistersHandOver(day: Weekday, hours: nat, minutes: nat)
    ensures var a := OnClickStore1(day, hours, minutes);
            (forall i :: 0 <= i < |a| ==> !TouchesRegister(a[i])) <==> !Store1Open(day, hours * 60 + minutes)
    ensures var a := OnClickStore2(day, hours, minutes);
            (forall i :: 0 <= i < |a| ==> !TouchesRegister(a[i])) <==> !Store2Open(day, hours * 60 + minutes)
    ensures var a := OnClickStore1(day, hours, minutes);
            forall i, j :: (0 <= i < |a| && 0 <= j < |a| && a[i] == DisconnectRegister(RestaurantRegister2) &&
                            a[j] == ConnectRegister(RestaurantRegister1)) ==> i < j
    ensures var a := OnClickStore2(day, hours, minutes);
            forall i, j :: (0 <= i < |a| && 0 <= j < |a| && a[i] == DisconnectRegister(RestaurantRegister1) &&
                            a[j] == ConnectRegister(RestaurantRegister2)) ==> i < j
  {
    var a1 := OnClickStore1(day, hours, minutes);
    var a2 := OnClickStore2(day, hours, minutes);
    if Store1Open(day, hours * 60 + minutes) {
      assert TouchesRegister(a1[0]);
    }
    if Store2Open(day, hours * 60 + minutes) {
      assert TouchesRegister(a2[0]);
    }
  }

  /** The closed message of store 1 names the opening time the check used, and its
      fixed closing text is the closing time the check used. */
  lemma Store1MessageMatchesHours(day: Weekday)
    ensures Store1ClosedMessage(day) ==
              "This store is only open between " + (if IsWeekend(day) then "12:00pm" else "5:00pm") + " and " +
              ConvertTo12HourFormat(Store1End) + "."
  {
    NoonReadsTwelve();
    FivePm();
    QuarterPastNinePm();
  }
}
