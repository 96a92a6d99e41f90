/**
 Calendar days as integers. The date picker hands the form a `Date`; the model
 keeps only its calendar day, so `getDay()` becomes a function of the day number.
 */
module Calendar {
  import opened Records

  /** `getDay()` numbers the week from Sunday = 0 to Saturday = 6. */
  const Sunday := 0

  /** `getDay()` of a day number; 1970-01-01 was a Thursday (4). */
  function Weekday(d: Day): (w: int)
    ensures 0 <= w < 7
    ensures w == Sunday <==> (d - 3) % 7 == 0
    ensures d == 0 ==> w == 4
  {
    (d + 4) % 7
  }

  /** Consecutive days have consecutive weekdays, wrapping from Saturday to Sunday. */
  lemma NextWeekday(d: Day)
    ensures Weekday(d + 1) == (Weekday(d) + 1) % 7
  {
  }

  /** Number of days in `[from, from + n)` that are not Sundays. */
  function CountNonSundays(from: Day, n: nat): (c: nat)
    ensures c <= n
    decreases n
  {
    if n == 0 then 0
    else (if Weekday(from) != Sunday then 1 else 0) + CountNonSundays(from + 1, n - 1)
  }

  /** Counting over two adjacent stretches of days adds up. */
  lemma {:induction false} CountNonSundaysSplit(from: Day, a: nat, b: nat)
    ensures CountNonSundays(from, a + b) == CountNonSundays(from, a) + CountNonSundays(from + a, b)
    decreases a
  {
    if a > 0 {
      CountNonSundaysSplit(from + 1, a - 1, b);
    }
  }

  /** Any seven consecutive days hold exactly one Sunday. */
  lemma {:induction false} OneSundayPerWeek(from: Day)
    ensures CountNonSundays(from, 7) == 6
  {
    var w := Weekday(from);
    NextWeekday(from);
    NextWeekday(from + 1);
    NextWeekday(from + 2);
    NextWeekday(from + 3);
    NextWeekday(from + 4);
    NextWeekday(from + 5);
    assert CountNonSundays(from + 7, 0) == 0;
  }

  /** `k` whole weeks hold exactly `6 * k` days that are not Sundays. */
  lemma {:induction false} NonSundaysInWeeks(from: Day, k: nat)
    ensures CountNonSundays(from, 7 * k) == 6 * k
    decreases k
  {
    if k > 0 {
      CountNonSundaysSplit(from, 7, 7 * (k - 1));
      OneSundayPerWeek(from);
      NonSundaysInWeeks(from + 7, k - 1);
    }
  }
}
