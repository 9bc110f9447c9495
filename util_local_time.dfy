/** `toLocalISOString` of src/util/util.tsx: the local wall-clock time as
    "yyyy-MM-ddTHH:mm:ss.fff". The kiosk uses these strings as order
    timestamps and as the bounds of the receipt printer's order queries, so
    their string order must be their time order. */
module LocalTime {
  import Text

  /** The fields `Date` reports for a local time: `month` as `getMonth()`
      (0 = January), `day` as `getDate()`. */
  datatype DateTime = DateTime(year: int, month: int, day: int, hours: int, minutes: int, seconds: int, milliseconds: int)

  /** Field ranges a `Date` produces, for years written with four digits. */
  predicate Valid(t: DateTime) {
    1000 <= t.year <= 9999 && 0 <= t.month < 12 && 1 <= t.day <= 31 &&
    0 <= t.hours < 24 && 0 <= t.minutes < 60 && 0 <= t.seconds < 60 && 0 <= t.milliseconds < 1000
  }

  function Abs(n: int): nat {
    if n < 0 then -n else n
  }

  /** `pad`: the magnitude in decimal, with a "0" in front of a single digit. */
  function Pad(num: int): (r: string)
    ensures 2 <= |r| && Text.AllDigits(r)
    ensures Text.ParseNat(r) == Abs(num)
    ensures Abs(num) < 100 ==> |r| == 2
  {
    var norm := Abs(num);
    Text.ParseNatToString(norm);
    if norm < 10 then
      Text.ParseNatLeadingZero(Text.NatToString(norm));
      "0" + Text.NatToString(norm)
    else
      Text.NatToStringShort(norm);
      Text.NatToString(norm)
  }

  /** On two-digit values `pad` is the two-digit zero-filled rendering. */
  lemma PadIsTwoDigits(num: nat)
    requires num < 100
    ensures Pad(num) == Text.PadTo(num, 2)
  {
    if num < 10 {
      assert Text.PadTo(num / 10, 1) == "0";
    } else {
      Text.NatToStringIsPadTo(num, 2);
    }
  }

  /** Everything up to and including the "." before the milliseconds. */
  function UpToMilliseconds(t: DateTime): string {
    Text.IntToString(t.year) + "-" + Pad(t.month + 1) + "-" + Pad(t.day) + "T" +
    Pad(t.hours) + ":" + Pad(t.minutes) + ":" + Pad(t.seconds) + "."
  }

  /** `toLocalISOString` as written: the milliseconds go through the same
      two-digit `pad` as the other fields. */
  function LocalIsoString(t: DateTime): string {
    UpToMilliseconds(t) + Pad(t.milliseconds)
  }

  /** The corrected rendering: every field has a fixed width and milliseconds
      take three digits, as in ISO 8601 and `Date.prototype.toISOString`. */
  function LocalIsoStringFixed(t: DateTime): string
    requires Valid(t)
  {
    ThroughHours(t) + ":" + Text.PadTo(t.minutes, 2) + ":" + Text.PadTo(t.seconds, 2) + "." +
    Text.PadTo(t.milliseconds, 3)
  }

  /** The fixed-width "yyyy-MM" the corrected rendering starts with. */
  function ThroughMonths(t: DateTime): string
    requires Valid(t)
  {
    Text.PadTo(t.year, 4) + "-" + Text.PadTo(t.month + 1, 2)
  }

  /** The fixed-width "yyyy-MM-dd". */
  function ThroughDays(t: DateTime): string
    requires Valid(t)
  {
    ThroughMonths(t) + "-" + Text.PadTo(t.day, 2)
  }

  /** The fixed-width "yyyy-MM-ddTHH". */
  function ThroughHours(t: DateTime): string
    requires Valid(t)
  {
    ThroughDays(t) + "T" + Text.PadTo(t.hours, 2)
  }

  /** Time order: the fields compared most significant first. */
  predicate Earlier(t1: DateTime, t2: DateTime) {
    t1.year < t2.year || (t1.year == t2.year &&
    (t1.month < t2.month || (t1.month == t2.month &&
    (t1.day < t2.day || (t1.day == t2.day &&
    (t1.hours < t2.hours || (t1.hours == t2.hours &&
    (t1.minutes < t2.minutes || (t1.minutes == t2.minutes &&
    (t1.seconds < t2.seconds || (t1.seconds == t2.seconds &&
    t1.milliseconds < t2.milliseconds)))))))))))
  }

  /** The correction changes only the milliseconds: for the field ranges a
      `Date` produces, everything before them is what the source prints. */
  lemma FixedDiffersOnlyInMilliseconds(t: DateTime)
    requires Valid(t)
    ensures LocalIsoStringFixed(t) == UpToMilliseconds(t) + Text.PadTo(t.milliseconds, 3)
    ensures t.milliseconds >= 100 ==> LocalIsoStringFixed(t) == LocalIsoString(t)
  {
    if t.milliseconds >= 100 {
      Text.NatToStringIsPadTo(t.milliseconds, 3);
    }
    Text.NatToStringIsPadTo(t.year, 4);
    PadIsTwoDigits(t.month + 1);
    PadIsTwoDigits(t.day);
    PadIsTwoDigits(t.hours);
    PadIsTwoDigits(t.minutes);
    PadIsTwoDigits(t.seconds);
  }

  /** One more field of width `w` after a separator: the strings compare by
      what precedes, then by the field's value. */
  lemma AppendField(a: string, b: string, sep: string, m: nat, n: nat, w: nat)
    requires |a| == |b| && m < Text.Pow10(w) && n < Text.Pow10(w)
    ensures Text.LexLess(a + sep + Text.PadTo(m, w), b + sep + Text.PadTo(n, w)) <==>
            Text.LexLess(a, b) || (a == b && m < n)
    ensures a + sep + Text.PadTo(m, w) == b + sep + Text.PadTo(n, w) <==> a == b && m == n
  {
    Text.PadToOrder(m, n, w);
    Text.LexLessJoin(a, b, sep, Text.PadTo(m, w), Text.PadTo(n, w));
  }

  predicate SameMonth(t1: DateTime, t2: DateTime) {
    t1.year == t2.year && t1.month == t2.month
  }

  predicate EarlierMonth(t1: DateTime, t2: DateTime) {
    t1.year < t2.year || (t1.year == t2.year && t1.month < t2.month)
  }

  lemma ThroughMonthsOrder(t1: DateTime, t2: DateTime)
    requires Valid(t1) && Valid(t2)
    ensures Text.LexLess(ThroughMonths(t1), ThroughMonths(t2)) <==> EarlierMonth(t1, t2)
    ensures ThroughMonths(t1) == ThroughMonths(t2) <==> SameMonth(t1, t2)
  {
    assert Text.Pow10(2) == 100 && Text.Pow10(4) == 10000;
    LeadingFields(t1.year, t2.year, 4, "-", t1.month + 1, t2.month + 1, 2);
  }

  /** Two fixed-width fields with a separator compare as the pairs of numbers they hold. */
  lemma LeadingFields(y1: nat, y2: nat, w1: nat, sep: string, m1: nat, m2: nat, w2: nat)
    requires y1 < Text.Pow10(w1) && y2 < Text.Pow10(w1) && m1 < Text.Pow10(w2) && m2 < Text.Pow10(w2)
    ensures Text.LexLess(Text.PadTo(y1, w1) + sep + Text.PadTo(m1, w2), Text.PadTo(y2, w1) + sep + Text.PadTo(m2, w2)) <==>
            y1 < y2 || (y1 == y2 && m1 < m2)
    ensures Text.PadTo(y1, w1) + sep + Text.PadTo(m1, w2) == Text.PadTo(y2, w1) + sep + Text.PadTo(m2, w2) <==>
            y1 == y2 && m1 == m2
  {
    Text.PadToOrder(y1, y2, w1);
    AppendField(Text.PadTo(y1, w1), Text.PadTo(y2, w1), sep, m1, m2, w2);
  }

  predicate SameDay(t1: DateTime, t2: DateTime) {
    SameMonth(t1, t2) && t1.day == t2.day
  }

  predicate EarlierDay(t1: DateTime, t2: DateTime) {
    EarlierMonth(t1, t2) || (SameMonth(t1, t2) && t1.day < t2.day)
  }

  lemma ThroughDaysOrder(t1: DateTime, t2: DateTime)
    requires Valid(t1) && Valid(t2)
    ensures Text.LexLess(ThroughDays(t1), ThroughDays(t2)) <==> EarlierDay(t1, t2)
    ensures ThroughDays(t1) == ThroughDays(t2) <==> SameDay(t1, t2)
  {
    assert Text.Pow10(2) == 100;
    ThroughMonthsOrder(t1, t2);
    AppendField(ThroughMonths(t1), ThroughMonths(t2), "-", t1.day, t2.day, 2);
  }

  predicate SameHour(t1: DateTime, t2: DateTime) {
    SameDay(t1, t2) && t1.hours == t2.hours
  }

  predicate EarlierHour(t1: DateTime, t2: DateTime) {
    EarlierDay(t1, t2) || (SameDay(t1, t2) && t1.hours < t2.hours)
  }

  lemma ThroughHoursOrder(t1: DateTime, t2: DateTime)
    requires Valid(t1) && Valid(t2)
    ensures Text.LexLess(ThroughHours(t1), ThroughHours(t2)) <==> EarlierHour(t1, t2)
    ensures ThroughHours(t1) == ThroughHours(t2) <==> SameHour(t1, t2)
  {
    assert Text.Pow10(2) == 100;
    ThroughDaysOrder(t1, t2);
    AppendField(ThroughDays(t1), ThroughDays(t2), "T", t1.hours, t2.hours, 2);
  }

  /** With three-digit milliseconds, one timestamp string sorts before another
      exactly when its time is earlier. */
  lemma FixedOrderIsTimeOrder(t1: DateTime, t2: DateTime)
    requires Valid(t1) && Valid(t2)
    ensures Text.LexLess(LocalIsoStringFixed(t1), LocalIsoStringFixed(t2)) <==> Earlier(t1, t2)
  {
    assert Text.Pow10(2) == 100 && Text.Pow10(3) == 1000;
    var a4, b4 := ThroughHours(t1), ThroughHours(t2);
    ThroughHoursOrder(t1, t2);
    var a5, b5 := a4 + ":" + Text.PadTo(t1.minutes, 2), b4 + ":" + Text.PadTo(t2.minutes, 2);
    AppendField(a4, b4, ":", t1.minutes, t2.minutes, 2);
    var a6, b6 := a5 + ":" + Text.PadTo(t1.seconds, 2), b5 + ":" + Text.PadTo(t2.seconds, 2);
    AppendField(a5, b5, ":", t1.seconds, t2.seconds, 2);
    AppendField(a6, b6, ".", t1.milliseconds, t2.milliseconds, 3);
  }

  /** As written, 10:00:00.123 sorts before 10:00:00.050, which is earlier:
      the strings end in ".123" and ".50". */
  lemma MillisecondsOrderInverted()
    ensures var t1 := DateTime(2024, 0, 1, 10, 0, 0, 50);
      var t2 := DateTime(2024, 0, 1, 10, 0, 0, 123);
      Earlier(t1, t2) && Text.LexLess(LocalIsoString(t2), LocalIsoString(t1))
  {
    var t1 := DateTime(2024, 0, 1, 10, 0, 0, 50);
    var t2 := DateTime(2024, 0, 1, 10, 0, 0, 123);
    var prefix := UpToMilliseconds(t1);
    SameUpToMilliseconds(t1, t2);
    MillisecondDigits();
    assert LocalIsoString(t2) == prefix + "123" && LocalIsoString(t1) == prefix + "50";
    Text.LexLessCommonPrefix(prefix, "123", "50");
  }

  lemma SameUpToMilliseconds(t1: DateTime, t2: DateTime)
    requires t1.(milliseconds := 0) == t2.(milliseconds := 0)
    ensures UpToMilliseconds(t1) == UpToMilliseconds(t2)
  {
  }

  /** The unpadded renderings of the two millisecond counts above. */
  lemma MillisecondDigits()
    ensures Pad(123) == "123" && Pad(50) == "50"
  {
    assert Text.NatToString(12) == "12" by {
      assert Text.NatToString(1) == "1";
    }
    assert Text.NatToString(5) == "5";
  }
}
