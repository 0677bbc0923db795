/**
 * The static text utilities of the alarm manager (src/AlarmManager.cpp:406-451): weekday bit
 * tests, day-mask <-> text conversion and "HH:MM" formatting, with Arduino String's
 * equalsIgnoreCase and indexOf as they behave on ASCII text.
 */
module AlarmText {
  import opened Common

  /** tm_wday: 0 = Sunday ... 6 = Saturday. */
  type Weekday = d: int | 0 <= d < 7

  /** `dayMask & (1 << day)` is nonzero: bit `day` of the 8-bit mask is set. */
  predicate HasDay(dayMask: Byte, day: Weekday) {
    (dayMask as bv8) & ((1 as bv8) << day) != 0
  }

  const Daily: Byte := 0x7F
  const Weekdays: Byte := 0x3E
  const Weekends: Byte := 0x41

  /** The keyword masks mean what their names say. */
  lemma KeywordMasksSelectTheirDays(day: Weekday)
    ensures HasDay(Daily, day)
    ensures HasDay(Weekdays, day) <==> 1 <= day <= 5
    ensures HasDay(Weekends, day) <==> day == 0 || day == 6
  {
  }

  /** The mask with only `day` set: `1 << day`. */
  function SingleDay(day: Weekday): (mask: Byte)
    ensures HasDay(mask, day)
    ensures forall d: Weekday :: d != day ==> !HasDay(mask, d)
  {
    [0x01, 0x02, 0x04, 0x08, 0x10, 0x20, 0x40][day]
  }

  function DayName(day: Weekday): string {
    ["Sun", "Mon", "Tue", "Wed", "Thu", "Fri", "Sat"][day]
  }

  /** The names of the days before `n` whose bits are set, comma-separated, Sunday first. */
  function DayList(dayMask: Byte, n: nat): string
    requires n <= 7
  {
    if n == 0 then ""
    else
      var earlier := DayList(dayMask, n - 1);
      if HasDay(dayMask, n - 1) then
        (if earlier == "" then "" else earlier + ",") + DayName(n - 1)
      else earlier
  }

  /** What dayMaskToString returns for `dayMask`. */
  function DayMaskText(dayMask: Byte): string {
    if dayMask == 0 || dayMask == Daily then "Daily"
    else if dayMask == Weekdays then "Weekdays"
    else if dayMask == Weekends then "Weekends"
    else if DayList(dayMask, 7) == "" then "None"
    else DayList(dayMask, 7)
  }

  /** dayMaskToString: the keyword masks by name, otherwise the set days in a loop. */
  method DayMaskToString(dayMask: Byte) returns (text: string)
    ensures text == DayMaskText(dayMask)
    ensures text != ""
  {
    if dayMask == 0 { return "Daily"; }
    if dayMask == Daily { return "Daily"; }
    if dayMask == Weekdays { return "Weekdays"; }
    if dayMask == Weekends { return "Weekends"; }
    var days := "";
    for i := 0 to 7
      invariant days == DayList(dayMask, i)
    {
      if (dayMask as bv8) & ((1 as bv8) << i) != 0 {
        if days != "" { days := days + ","; }
        days := days + DayName(i);
      }
    }
    text := if days == "" then "None" else days;
  }

  // ---------------------------------------------------------------------------------------
  // Arduino String helpers

  function ToLowerAscii(c: char): char {
    if 'A' <= c <= 'Z' then (c as int + 32) as char else c
  }

  function Lower(s: string): (r: string)
    ensures |r| == |s|
    ensures forall i :: 0 <= i < |s| ==> r[i] == ToLowerAscii(s[i])
  {
    if s == [] then [] else [ToLowerAscii(s[0])] + Lower(s[1..])
  }

  /** String::equalsIgnoreCase on ASCII text. */
  predicate EqualsIgnoreCase(a: string, b: string) {
    Lower(a) == Lower(b)
  }

  /** `pat` occurs in `s` starting at position `k`. */
  predicate OccursAt(s: string, pat: string, k: int) {
    0 <= k && k + |pat| <= |s| && s[k..k + |pat|] == pat
  }

  /** String::indexOf(pat, from): the first position at or after `from` where `pat` occurs, or -1. */
  function IndexOfFrom(s: string, pat: string, from: nat): (r: int)
    ensures r == -1 || (from <= r && OccursAt(s, pat, r))
    ensures forall k :: from <= k && OccursAt(s, pat, k) ==> r != -1 && r <= k
    decreases |s| - from
  {
    if from + |pat| > |s| then -1
    else if s[from..from + |pat|] == pat then from
    else IndexOfFrom(s, pat, from + 1)
  }

  /** A text no longer than the pattern contains it only by being it. */
  lemma IndexOfShortText(s: string, pat: string)
    requires |s| <= |pat|
    ensures IndexOfFrom(s, pat, 0) != -1 <==> s == pat
  {
    if s == pat {
      assert OccursAt(s, pat, 0);
    }
  }

  function IndexOf(s: string, pat: string): int {
    IndexOfFrom(s, pat, 0)
  }

  /** stringToDayMask: keywords ignoring case, else a bit per lower-case day name found. */
  function StringToDayMask(days: string): (mask: Byte)
    ensures mask <= Daily
  {
    if EqualsIgnoreCase(days, "daily") then Daily
    else if EqualsIgnoreCase(days, "weekdays") then Weekdays
    else if EqualsIgnoreCase(days, "weekends") then Weekends
    else FoundMask(DaysFound(days))
  }

  /** For each day, Sunday first, whether its lower-case name occurs in the text. */
  function DaysFound(days: string): (found: seq<bool>)
    ensures |found| == 7
  {
    seq(7, d requires 0 <= d < 7 => IndexOf(days, LowerDayName(d)) != -1)
  }

  /** The bits the `mask |=` lines set: bit d for each day d whose flag is true. */
  function FlagBits(found: seq<bool>): bv8
    requires |found| == 7
  {
    (if found[0] then 0x01 else 0)
    | (if found[1] then 0x02 else 0)
    | (if found[2] then 0x04 else 0)
    | (if found[3] then 0x08 else 0)
    | (if found[4] then 0x10 else 0)
    | (if found[5] then 0x20 else 0)
    | (if found[6] then 0x40 else 0)
  }

  /** The mask with bit d set for each day d whose flag is true. */
  function FoundMask(found: seq<bool>): (mask: Byte)
    requires |found| == 7
    ensures mask <= Daily
  {
    FlagBits(found) as int
  }

  /** Bit d of the flag bits is set exactly when flag d is true. */
  lemma FlagBitsSelect(found: seq<bool>, day: Weekday)
    requires |found| == 7
    ensures FlagBits(found) & ((1 as bv8) << day) != 0 <==> found[day]
  {
    if day == 0 { assert (1 as bv8) << day == 0x01; }
    else if day == 1 { assert (1 as bv8) << day == 0x02; }
    else if day == 2 { assert (1 as bv8) << day == 0x04; }
    else if day == 3 { assert (1 as bv8) << day == 0x08; }
    else if day == 4 { assert (1 as bv8) << day == 0x10; }
    else if day == 5 { assert (1 as bv8) << day == 0x20; }
    else { assert (1 as bv8) << day == 0x40; }
  }

  /** An 8-bit pattern read as a number and back is itself. */
  lemma BitsRoundTrip(b: bv8)
    ensures (b as int) as bv8 == b
  {
  }

  /** Bit d of the mask is set exactly when flag d is true. */
  lemma FoundMaskSelects(found: seq<bool>, day: Weekday)
    requires |found| == 7
    ensures HasDay(FoundMask(found), day) <==> found[day]
  {
    BitsRoundTrip(FlagBits(found));
    FlagBitsSelect(found, day);
  }

  /** The keyword texts match their own lower-case keywords, and no other keyword, ignoring case. */
  lemma KeywordTextsIgnoringCase()
    ensures EqualsIgnoreCase("Daily", "daily")
    ensures !EqualsIgnoreCase("Weekdays", "daily") && EqualsIgnoreCase("Weekdays", "weekdays")
    ensures !EqualsIgnoreCase("Weekends", "daily") && !EqualsIgnoreCase("Weekends", "weekdays")
    ensures EqualsIgnoreCase("Weekends", "weekends")
  {
    assert Lower("Weekdays")[0] != Lower("daily")[0];
    assert Lower("Weekends")[0] != Lower("daily")[0];
    assert Lower("Weekends")[4] != Lower("weekdays")[4];
  }

  /**
   * The keyword masks survive a trip through their text; mask 0 prints as "Daily" and so reads
   * back as the daily mask.
   */
  lemma KeywordMasksRoundTrip(mask: Byte)
    requires mask == 0 || mask == Daily || mask == Weekdays || mask == Weekends
    ensures DayMaskText(mask) ==
      if mask in {0, Daily} then "Daily" else if mask == Weekdays then "Weekdays" else "Weekends"
    ensures StringToDayMask(DayMaskText(mask)) == if mask == 0 then Daily else mask
  {
    KeywordTextsIgnoringCase();
  }

  /** The lower-case day names that stringToDayMask searches for, Sunday first. */
  function LowerDayName(day: Weekday): (name: string)
    ensures |name| == 3
  {
    ["sun", "mon", "tue", "wed", "thu", "fri", "sat"][day]
  }

  /**
   * For a text that is none of the keywords, each day's bit is set exactly when that day's
   * lower-case name occurs somewhere in the text.
   */
  lemma DayNamesSelectDays(s: string, day: Weekday)
    requires !EqualsIgnoreCase(s, "daily") && !EqualsIgnoreCase(s, "weekdays")
    requires !EqualsIgnoreCase(s, "weekends")
    ensures HasDay(StringToDayMask(s), day) <==> IndexOf(s, LowerDayName(day)) != -1
  {
    FoundMaskSelects(DaysFound(s), day);
  }

  /** A text shorter than five characters is none of the keywords. */
  lemma ShortTextIsNoKeyword(s: string)
    requires |s| < 5
    ensures !EqualsIgnoreCase(s, "daily") && !EqualsIgnoreCase(s, "weekdays")
    ensures !EqualsIgnoreCase(s, "weekends")
  {
    assert |Lower(s)| < 5;
  }

  /** With no keyword and no lower-case day name in the text, the mask is empty. */
  lemma NoDayNameFound(s: string)
    requires !EqualsIgnoreCase(s, "daily") && !EqualsIgnoreCase(s, "weekdays")
    requires !EqualsIgnoreCase(s, "weekends")
    requires forall day: Weekday :: IndexOf(s, LowerDayName(day)) == -1
    ensures StringToDayMask(s) == 0
  {
    var found := DaysFound(s);
    assert found == [false, false, false, false, false, false, false];
  }

  /** With no keyword and exactly one lower-case day name in the text, only its bit is set. */
  lemma OneDayNameFound(s: string, day: Weekday)
    requires !EqualsIgnoreCase(s, "daily") && !EqualsIgnoreCase(s, "weekdays")
    requires !EqualsIgnoreCase(s, "weekends")
    requires forall d: Weekday :: IndexOf(s, LowerDayName(d)) != -1 <==> d == day
    ensures StringToDayMask(s) == SingleDay(day)
  {
    OneFlagSet(DaysFound(s), day);
  }

  /** With only flag `day` true, the mask is that day's single bit. */
  lemma OneFlagSet(found: seq<bool>, day: Weekday)
    requires |found| == 7
    requires forall d :: 0 <= d < 7 ==> (found[d] <==> d == day)
    ensures FoundMask(found) == SingleDay(day)
  {
    if day == 0 { assert found == [true, false, false, false, false, false, false]; }
    else if day == 1 { assert found == [false, true, false, false, false, false, false]; }
    else if day == 2 { assert found == [false, false, true, false, false, false, false]; }
    else if day == 3 { assert found == [false, false, false, true, false, false, false]; }
    else if day == 4 { assert found == [false, false, false, false, true, false, false]; }
    else if day == 5 { assert found == [false, false, false, false, false, true, false]; }
    else { assert found == [false, false, false, false, false, false, true]; }
  }

  /** No lower-case day name occurs in a short text that begins with a capital letter. */
  lemma CapitalisedTextHoldsNoName(s: string)
    requires 1 <= |s| <= 3 && 'A' <= s[0] <= 'Z'
    ensures forall day: Weekday :: IndexOf(s, LowerDayName(day)) == -1
  {
    forall day: Weekday
      ensures IndexOf(s, LowerDayName(day)) == -1
    {
      IndexOfShortText(s, LowerDayName(day));
      assert LowerDayName(day)[0] != s[0];
    }
  }

  /** A text of three letters or fewer that begins with a capital letter sets no bit. */
  lemma CapitalisedShortTextReadsEmpty(s: string)
    requires 1 <= |s| <= 3 && 'A' <= s[0] <= 'Z'
    ensures StringToDayMask(s) == 0
  {
    ShortTextIsNoKeyword(s);
    CapitalisedTextHoldsNoName(s);
    NoDayNameFound(s);
  }

  /** Listing the first `n` days of a single-day mask names that day once it is among them. */
  lemma {:induction false} SingleDayList(day: Weekday, n: nat)
    requires n <= 7
    ensures DayList(SingleDay(day), n) == if day < n then DayName(day) else ""
  {
    if n > 0 {
      SingleDayList(day, n - 1);
    }
  }

  /** A single-day mask prints as that day's capitalised name. */
  lemma SingleDayText(day: Weekday)
    ensures DayMaskText(SingleDay(day)) == DayName(day)
  {
    var mask := SingleDay(day);
    assert mask in {0x01, 0x02, 0x04, 0x08, 0x10, 0x20, 0x40};
    SingleDayList(day, 7);
  }

  /**
   * A single-day mask prints as the capitalised day name, which the case-sensitive lower-case
   * search of stringToDayMask does not find: the text reads back as the empty mask.
   */
  lemma SingleDayTextReadsBackEmpty(day: Weekday)
    ensures StringToDayMask(DayMaskText(SingleDay(day))) == 0
  {
    SingleDayText(day);
    CapitalisedShortTextReadsEmpty(DayName(day));
  }

  /** The searched-for names are the day names in lower case, and are all different. */
  lemma LowerDayNames(day: Weekday, other: Weekday)
    ensures Lower(DayName(day)) == LowerDayName(day)
    ensures LowerDayName(day) == LowerDayName(other) ==> day == other
  {
  }

  /** Searching a lower-case day name for the names finds only itself. */
  lemma OnlyOwnNameFound(day: Weekday)
    ensures forall d: Weekday :: IndexOf(LowerDayName(day), LowerDayName(d)) != -1 <==> d == day
  {
    forall d: Weekday
      ensures IndexOf(LowerDayName(day), LowerDayName(d)) != -1 <==> d == day
    {
      IndexOfShortText(LowerDayName(day), LowerDayName(d));
      LowerDayNames(day, d);
    }
  }

  /** The lower-case spelling of a day name is found, and reads back as that day's mask. */
  lemma LowerCaseDayNameReadsBack(day: Weekday)
    ensures StringToDayMask(Lower(DayName(day))) == SingleDay(day)
  {
    LowerDayNames(day, day);
    var s := LowerDayName(day);
    ShortTextIsNoKeyword(s);
    OnlyOwnNameFound(day);
    OneDayNameFound(s, day);
  }

  /** formatTime: sprintf("%02d:%02d", hour, minute). */
  function FormatTime(hour: Byte, minute: Byte): (text: string)
    ensures hour < 100 && minute < 100 ==>
      && |text| == 5
      && text[2] == ':'
      && IsDigits(text[..2]) && IsDigits(text[3..])
      && ParseDecimal(text[..2]) == hour
      && ParseDecimal(text[3..]) == minute
  {
    var text := TwoDigit(hour) + ":" + TwoDigit(minute);
    if hour < 100 && minute < 100 then
      assert text[..2] == TwoDigit(hour);
      assert text[3..] == TwoDigit(minute);
      text
    else text
  }
}
