/**
 The fixed list of appointment times the booking form offers, and an
 independent description of it: every half hour from 08:00 to 17:30 except
 13:00 and 13:30 (the lunch break).
 */
module TimeSlots {
  import opened Wrappers

  /** The options of the time selector, in display order. */
  const Slots: seq<string> := [
    "08:00", "08:30", "09:00", "09:30", "10:00", "10:30",
    "11:00", "11:30", "12:00", "12:30", "14:00", "14:30",
    "15:00", "15:30", "16:00", "16:30", "17:00", "17:30"
  ]

  /** Minutes after midnight at which the clinic takes appointments. */
  predicate OpeningMinute(m: int) {
    480 <= m <= 1050 && m % 30 == 0 && !(780 <= m < 840)
  }

  function Digit(n: int): char
    requires 0 <= n < 10
  {
    ('0' as int + n) as char
  }

  predicate IsDigit(c: char) {
    '0' <= c <= '9'
  }

  function DigitValue(c: char): int {
    c as int - '0' as int
  }

  /** "HH:MM" for a minute of the day. */
  function FormatTime(m: int): (s: string)
    requires 0 <= m < 1440
    ensures |s| == 5 && s[2] == ':'
  {
    var h := m / 60;
    var mm := m % 60;
    [Digit(h / 10), Digit(h % 10), ':', Digit(mm / 10), Digit(mm % 10)]
  }

  /** Reads "HH:MM" back as minutes after midnight. */
  function ParseTime(s: string): (r: Option<int>)
    ensures r.Some? ==> |s| == 5 && s[2] == ':'
  {
    if |s| == 5 && IsDigit(s[0]) && IsDigit(s[1]) && s[2] == ':' && IsDigit(s[3]) && IsDigit(s[4]) then
      Some(60 * (10 * DigitValue(s[0]) + DigitValue(s[1])) + 10 * DigitValue(s[3]) + DigitValue(s[4]))
    else
      None
  }

  lemma ParseFormatted(m: int)
    requires 0 <= m < 1440
    ensures ParseTime(FormatTime(m)) == Some(m)
  {
    var h, mm := m / 60, m % 60;
    assert 10 * (h / 10) + h % 10 == h;
    assert 10 * (mm / 10) + mm % 10 == mm;
  }

  /** Formatting is injective on the minutes of a day. */
  lemma FormatInjective(m1: int, m2: int)
    requires 0 <= m1 < 1440 && 0 <= m2 < 1440
    requires FormatTime(m1) == FormatTime(m2)
    ensures m1 == m2
  {
    ParseFormatted(m1);
    ParseFormatted(m2);
  }

  /** The minute of the `i`-th slot: ten slots from 08:00, then eight from 14:00. */
  function SlotMinute(i: int): int
    requires 0 <= i < 18
  {
    if i < 10 then 480 + 30 * i else 840 + 30 * (i - 10)
  }

  /** Slots 0 to 5 (08:00 to 10:30) are the formatted opening minutes. */
  lemma MorningSlotsFormatted(i: int)
    requires 0 <= i < 6
    ensures Slots[i] == FormatTime(SlotMinute(i))
  {
    if i == 0 { assert FormatTime(480) == "08:00"; }
    else if i == 1 { assert FormatTime(510) == "08:30"; }
    else if i == 2 { assert FormatTime(540) == "09:00"; }
    else if i == 3 { assert FormatTime(570) == "09:30"; }
    else if i == 4 { assert FormatTime(600) == "10:00"; }
    else { assert FormatTime(630) == "10:30"; }
  }

  /** Slots 6 to 11 (11:00 to 14:30) are the formatted opening minutes. */
  lemma MiddaySlotsFormatted(i: int)
    requires 6 <= i < 12
    ensures Slots[i] == FormatTime(SlotMinute(i))
  {
    if i == 6 { assert FormatTime(660) == "11:00"; }
    else if i == 7 { assert FormatTime(690) == "11:30"; }
    else if i == 8 { assert FormatTime(720) == "12:00"; }
    else if i == 9 { assert FormatTime(750) == "12:30"; }
    else if i == 10 { assert FormatTime(840) == "14:00"; }
    else { assert FormatTime(870) == "14:30"; }
  }

  /** Slots 12 to 17 (15:00 to 17:30) are the formatted opening minutes. */
  lemma AfternoonSlotsFormatted(i: int)
    requires 12 <= i < 18
    ensures Slots[i] == FormatTime(SlotMinute(i))
  {
    if i == 12 { assert FormatTime(900) == "15:00"; }
    else if i == 13 { assert FormatTime(930) == "15:30"; }
    else if i == 14 { assert FormatTime(960) == "16:00"; }
    else if i == 15 { assert FormatTime(990) == "16:30"; }
    else if i == 16 { assert FormatTime(1020) == "17:00"; }
    else { assert FormatTime(1050) == "17:30"; }
  }

  lemma SlotsAreFormatted(i: int)
    requires 0 <= i < 18
    ensures Slots[i] == FormatTime(SlotMinute(i))
  {
    if i < 6 { MorningSlotsFormatted(i); }
    else if i < 12 { MiddaySlotsFormatted(i); }
    else { AfternoonSlotsFormatted(i); }
  }

  /** The position of an offered time in the list. */
  lemma IndexOf(t: string) returns (i: int)
    requires t in Slots
    ensures 0 <= i < 18 && Slots[i] == t
  {
    i :| 0 <= i < |Slots| && Slots[i] == t;
  }

  /** An offered time is an opening minute. */
  lemma OfferedIsOpening(m: int)
    requires 0 <= m < 1440 && FormatTime(m) in Slots
    ensures OpeningMinute(m)
  {
    var i := IndexOf(FormatTime(m));
    SlotsAreFormatted(i);
    FormatInjective(m, SlotMinute(i));
  }

  /** Every opening minute is offered, at the position its half hour gives it. */
  lemma OpeningIsOffered(m: int)
    requires OpeningMinute(m)
    ensures 0 <= m < 1440 && FormatTime(m) in Slots
  {
    var k := (m - 480) / 30;
    assert m == 480 + 30 * k;
    var i := if k < 10 then k else k - 2;
    assert SlotMinute(i) == m;
    SlotsAreFormatted(i);
  }

  /** A time of day is offered exactly when it is an opening minute. */
  lemma SlotsAreOpeningHours(m: int)
    requires 0 <= m < 1440
    ensures FormatTime(m) in Slots <==> OpeningMinute(m)
  {
    if FormatTime(m) in Slots {
      OfferedIsOpening(m);
    }
    if OpeningMinute(m) {
      OpeningIsOffered(m);
    }
  }

  /** Every offered string is a well-formed time at an opening minute. */
  lemma SlotsParse(t: string)
    requires t in Slots
    ensures ParseTime(t).Some? && OpeningMinute(ParseTime(t).value) && FormatTime(ParseTime(t).value) == t
  {
    var i := IndexOf(t);
    var m := SlotMinute(i);
    SlotsAreFormatted(i);
    ParseFormatted(m);
    assert ParseTime(t) == Some(m);
    assert OpeningMinute(m);
  }

  /** No time is offered twice. */
  lemma SlotsDistinct(i: int, j: int)
    requires 0 <= i < j < |Slots|
    ensures Slots[i] != Slots[j]
  {
    SlotsAreFormatted(i);
    SlotsAreFormatted(j);
    if Slots[i] == Slots[j] {
      FormatInjective(SlotMinute(i), SlotMinute(j));
    }
  }

  /** The concrete facts about the list: 18 slots, morning and afternoon ends present, lunch absent. */
  lemma SlotFacts()
    ensures |Slots| == 18
    ensures "08:00" in Slots && "12:30" in Slots && "17:30" in Slots
    ensures "13:00" !in Slots && "13:30" !in Slots && "08:15" !in Slots
  {
    SlotsAreOpeningHours(780);
    SlotsAreOpeningHours(810);
    SlotsAreOpeningHours(495);
    assert FormatTime(780) == "13:00";
    assert FormatTime(810) == "13:30";
    assert FormatTime(495) == "08:15";
  }
}
