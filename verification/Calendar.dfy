/** Days as proleptic Gregorian ordinals: day 1 is Monday, 1 January of the year 1. */
module Calendar {
  const LAST_DAY := 3652059

  /** A date as it stands in a document: a day in canonical ISO form, or some other text. */
  datatype DateText = Iso(day: int) | OtherText(text: string)

  const DAY := 24 * 60 * 60 * 1_000_000

  /** The day of an instant in microseconds: day 1 is the day of instant 0, whatever instant that stands for. */
  function DayOf(timestamp: int): int { timestamp / DAY + 1 }

  predicate IsDay(d: int) { 1 <= d <= LAST_DAY }

  /** Monday is 0. */
  function Weekday(d: int): (w: int)
    ensures 0 <= w < 7
  {
    (d + 6) % 7
  }

  predicate IsWeekday(d: int) { Weekday(d) < 5 }

  function One(b: bool): nat { if b then 1 else 0 }

  /** The weekdays from day a up to, and not including, day b, counted one by one. */
  function CountWeekdays(a: int, b: int): (n: nat)
    ensures n <= if a < b then b - a else 0
    decreases b - a
  {
    if a >= b then 0 else One(IsWeekday(a)) + CountWeekdays(a + 1, b)
  }

  function RemainderWeekdays(first: int, remainder: nat): nat {
    if remainder == 0 then 0 else RemainderWeekdays(first, remainder - 1) + One((first + remainder - 1) % 7 < 5)
  }

  /** The closed form of the source: whole weeks have five weekdays, and fewer than seven days are left over. */
  function WeekdaysStrictlyBetween(start: int, end: int): nat {
    var interior := end - start - 1;
    if interior <= 0 then 0
    else interior / 7 * 5 + RemainderWeekdays((Weekday(start) + 1) % 7, interior % 7)
  }

  lemma {:induction false} NextWeekday(d: int, k: nat)
    ensures ((Weekday(d) + 1) % 7 + k) % 7 == Weekday(d + 1 + k)
  {
  }

  lemma {:induction false} CountAppends(a: int, m: int, b: int)
    requires a <= m <= b
    ensures CountWeekdays(a, b) == CountWeekdays(a, m) + CountWeekdays(m, b)
    decreases m - a
  {
    if a < m { CountAppends(a + 1, m, b); }
  }

  lemma {:induction false} RemainderCounts(d: int, k: nat)
    ensures RemainderWeekdays((Weekday(d) + 1) % 7, k) == CountWeekdays(d + 1, d + 1 + k)
  {
    if k > 0 {
      RemainderCounts(d, k - 1);
      CountAppends(d + 1, d + k, d + 1 + k);
      NextWeekday(d, k - 1);
    }
  }

  lemma {:induction false} SevenDays(a: int)
    ensures One(IsWeekday(a)) + One(IsWeekday(a + 1)) + One(IsWeekday(a + 2)) + One(IsWeekday(a + 3))
            + One(IsWeekday(a + 4)) + One(IsWeekday(a + 5)) + One(IsWeekday(a + 6)) == 5
  {
    Later(a, 1);
    Later(a, 2);
    Later(a, 3);
    Later(a, 4);
    Later(a, 5);
    Later(a, 6);
  }

  lemma {:induction false} Later(d: int, k: nat)
    requires k < 7
    ensures Weekday(d + k) == if Weekday(d) + k < 7 then Weekday(d) + k else Weekday(d) + k - 7
  {
  }

  lemma {:induction false} WeekHasFive(a: int)
    ensures CountWeekdays(a, a + 7) == 5
  {
    SevenDays(a);
    assert CountWeekdays(a + 4, a + 7) == One(IsWeekday(a + 4)) + One(IsWeekday(a + 5)) + One(IsWeekday(a + 6)) by {
      assert CountWeekdays(a + 6, a + 7) == One(IsWeekday(a + 6));
    }
    assert CountWeekdays(a + 2, a + 7) == One(IsWeekday(a + 2)) + One(IsWeekday(a + 3)) + CountWeekdays(a + 4, a + 7);
  }

  lemma {:induction false} WeeksHaveFives(a: int, weeks: nat)
    ensures CountWeekdays(a, a + 7 * weeks) == 5 * weeks
  {
    if weeks > 0 {
      WeeksHaveFives(a, weeks - 1);
      WeekHasFive(a + 7 * (weeks - 1));
      CountAppends(a, a + 7 * (weeks - 1), a + 7 * weeks);
    }
  }

  /** The closed form is the count of the days one by one. */
  lemma {:induction false} ClosedFormCounts(start: int, end: int)
    ensures WeekdaysStrictlyBetween(start, end) == CountWeekdays(start + 1, end)
  {
    var interior := end - start - 1;
    if interior > 0 {
      var weeks, rest := interior / 7, interior % 7;
      RemainderCounts(start, rest);
      WeeksHaveFives(start + 1 + rest, weeks);
      CountAppends(start + 1, start + 1 + rest, end);
    }
  }

  lemma {:induction false} NoneCounted(a: int, b: int)
    ensures CountWeekdays(a, b) == 0 <==> forall d :: a <= d < b ==> !IsWeekday(d)
    decreases b - a
  {
    if a < b { NoneCounted(a + 1, b); }
  }
}
