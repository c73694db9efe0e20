/**
 Event periods and the date tags derived from them. Instants are read in UTC: a civil day
 and a time within it.
 */
module DateTags {
  import opened Collections
  import opened Options

  datatype Date = Date(year: int, month: int, day: int)

  datatype Instant = Instant(date: Date, clock: nat)

  datatype Outcome = Accepted | OngoingWithEnd | EndBeforeStart | TooLong

  const MAX_PERIOD_YEARS := 100

  // The months, the years of a hundred years and a day, and no Ongoing with an end
  const MAX_DATE_TAGS := 12 + 101

  const ONGOING_TAG := "Ongoing"

  const MONTH_NAMES: seq<string> := [
    "January", "February", "March", "April", "May", "June",
    "July", "August", "September", "October", "November", "December"]

  predicate Leap(year: int) {
    year % 400 == 0 || (year % 4 == 0 && year % 100 != 0)
  }

  function DaysIn(year: int, month: int): int {
    if month == 2 then (if Leap(year) then 29 else 28)
    else if month in {4, 6, 9, 11} then 30
    else 31
  }

  predicate Valid(d: Date) {
    1 <= d.month <= 12 && 1 <= d.day <= DaysIn(d.year, d.month)
  }

  type Day = d: Date | Valid(d) witness Date(1970, 1, 1)

  predicate Before(a: Date, b: Date) {
    || a.year < b.year
    || (a.year == b.year && a.month < b.month)
    || (a.year == b.year && a.month == b.month && a.day < b.day)
  }

  // The same day some years on; a 29 February missing there becomes the 1 March after it
  function AddYears(d: Date, years: int): Date {
    if d.month == 2 && d.day == 29 && !Leap(d.year + years) then Date(d.year + years, 3, 1)
    else Date(d.year + years, d.month, d.day)
  }

  function FirstOfMonth(d: Date): Date {
    Date(d.year, d.month, 1)
  }

  // One month on, from the first of a month
  function NextMonth(d: Date): Date {
    if d.month == 12 then Date(d.year + 1, 1, d.day) else Date(d.year, d.month + 1, d.day)
  }

  function MonthIndex(d: Date): int {
    12 * d.year + d.month
  }

  function Digits(n: nat): (s: string) {
    if n < 10 then [DigitChar(n)] else Digits(n / 10) + [DigitChar(n % 10)]
  }

  function DigitChar(n: nat): char
    requires n < 10
  {
    '0' + n as char
  }

  function Itoa(n: int): string {
    if n < 0 then "-" + Digits(-n) else Digits(n)
  }

  function ValueOfDigits(s: string): int
    decreases |s|
  {
    if s == [] then 0 else 10 * ValueOfDigits(s[..|s| - 1]) + (s[|s| - 1] as int - '0' as int)
  }

  function Atoi(s: string): int {
    if s != [] && s[0] == '-' then -ValueOfDigits(s[1..]) else ValueOfDigits(s)
  }

  lemma {:induction false} DigitsRoundTrip(n: nat)
    ensures Digits(n) != [] && '0' <= Digits(n)[0] <= '9' && ValueOfDigits(Digits(n)) == n
  {
    if n < 10 {
      assert Digits(n)[..0] == [];
    } else {
      DigitsRoundTrip(n / 10);
      assert Digits(n)[..|Digits(n)| - 1] == Digits(n / 10);
    }
  }

  // Different years get different names
  lemma ItoaRoundTrip(n: int)
    ensures Itoa(n) != [] && (Itoa(n)[0] == '-' || '0' <= Itoa(n)[0] <= '9') && Atoi(Itoa(n)) == n
  {
    DigitsRoundTrip(if n < 0 then -n else n);
    if n < 0 {
      assert Itoa(n)[1..] == Digits(-n);
    }
  }

  predicate IsYearName(name: string, first: int, last: int) {
    first <= Atoi(name) <= last && name == Itoa(Atoi(name))
  }

  predicate IsMonthName(name: string, first: int, last: int) {
    exists i {:trigger MonthName(i)} | first <= i <= last :: name == MonthName(i)
  }

  function MonthName(index: int): string {
    MONTH_NAMES[(index - 1) % 12]
  }

  datatype Period = Period(start: Day, end: Option<Day>, ongoing: bool)

  // From its first day to the same day a hundred years on
  predicate PeriodAccepted(p: Period) {
    p.end.Some? ==>
      !p.ongoing && !Before(p.end.value, p.start) && !Before(AddYears(p.start, MAX_PERIOD_YEARS), p.end.value)
  }

  // A period of one day has no end
  function Normalised(p: Period): Period {
    if p.end == Some(p.start) then p.(end := None) else p
  }

  function LastOf(p: Period): Day {
    if p.end.Some? then p.end.value else p.start
  }

  // The names of the date tags a period implies
  ghost predicate NamesPeriod(name: string, p: Period) {
    NamesMonths(name, p.start, LastOf(p)) || (p.ongoing && name == ONGOING_TAG)
  }

  // The names of the months and years from one month to another, both included
  ghost predicate NamesMonths(name: string, first: Date, last: Date) {
    MonthIndex(first) <= MonthIndex(last)
    && (IsMonthName(name, MonthIndex(first), MonthIndex(last)) || IsYearName(name, first.year, last.year))
  }

  // The names of the month and the year of some day from one day to another
  ghost predicate NamesDays(name: string, start: Date, end: Date) {
    exists d {:trigger Valid(d)} | Valid(d) && !Before(d, start) && !Before(end, d) ::
      name == MonthName(d.month) || name == Itoa(d.year)
  }

  type Moment = i: Instant | Valid(i.date) witness Instant(Date(1970, 1, 1), 0)

  class Event {
    var date: Moment
    var endDate: Option<Moment>
    var isOngoing: bool

    constructor (date: Moment, endDate: Option<Moment>, isOngoing: bool)
      ensures this.date == date && this.endDate == endDate && this.isOngoing == isOngoing
    {
      this.date, this.endDate, this.isOngoing := date, endDate, isOngoing;
    }

    // The days of the event
    function Days(): Period
      reads this
    {
      Period(date.date, if endDate.Some? then Some(endDate.value.date) else None, isOngoing)
    }

    // The period is accepted or refused with its reason; a period of one day loses its end,
    // and nothing else changes
    method ValidatePeriod() returns (outcome: Outcome)
      modifies this`endDate
      ensures outcome.Accepted? <==> PeriodAccepted(old(Days()))
      ensures outcome.OngoingWithEnd? <==> old(endDate).Some? && isOngoing
      ensures outcome.EndBeforeStart? ==> Before(old(endDate).value.date, date.date)
      ensures outcome.TooLong? ==> Before(AddYears(date.date, 100), old(endDate).value.date)
      ensures Days() == if outcome.Accepted? then Normalised(old(Days())) else old(Days())
      ensures endDate in {None, old(endDate)}
    {
      if endDate.None? {
        return Accepted;
      }
      if isOngoing {
        return OngoingWithEnd;
      }
      var start, end := date.date, endDate.value.date;
      if Before(end, start) {
        return EndBeforeStart;
      } else if end == start {
        HundredYears(start);
        endDate := None;
      } else if Before(AddYears(start, MAX_PERIOD_YEARS), end) {
        return TooLong;
      }
      return Accepted;
    }

    // The names of the date tags: no name twice, and exactly the months and years walked,
    // with Ongoing for an open period. The ghost result counts the months walked.
    method DateTagNames() returns (names: seq<string>, ghost walked: nat)
      ensures Distinct(names)
      ensures forall name :: name in names <==> NamesPeriod(name, Days())
      ensures var last := LastOf(Days());
              walked == if MonthIndex(last) < MonthIndex(date.date) then 0
                  else MonthIndex(last) - MonthIndex(date.date) + 1
    {
      hide MonthName, Itoa, Collected, Distinct, NamesMonths, DaysIn;
      var end := date.date;
      if endDate.Some? {
        end := endDate.value.date;
      }
      names := [];
      var seen: set<string> := {};
      var cursor, last := FirstOfMonth(date.date), FirstOfMonth(end);
      walked := 0;
      CollectedNone(date.date);
      while !Before(last, cursor)
        invariant 1 <= cursor.month <= 12 && cursor.day == 1
        invariant MonthIndex(cursor) == MonthIndex(date.date) + walked
        invariant walked > 0 ==> MonthIndex(cursor) <= MonthIndex(last) + 1
        invariant Collected(names, seen, date.date, MonthIndex(cursor) - 1)
        decreases MonthIndex(last) - MonthIndex(cursor)
      {
        CollectOneMore(names, seen, date.date, cursor);
        ghost var names0, seen0 := names, seen;
        if MonthName(cursor.month) !in seen {
          seen := seen + {MonthName(cursor.month)};
          names := names + [MonthName(cursor.month)];
        }
        assert seen == seen0 + {MonthName(cursor.month)} && names == With(names0, MonthName(cursor.month));
        if Itoa(cursor.year) !in seen {
          seen := seen + {Itoa(cursor.year)};
          names := names + [Itoa(cursor.year)];
        }
        assert seen == seen0 + {MonthName(cursor.month)} + {Itoa(cursor.year)};
        cursor := NextMonth(cursor);
        walked := walked + 1;
      }
      CollectedAll(names, seen, date.date, end);
      WithAdds(names, ONGOING_TAG);
      if isOngoing {
        if ONGOING_TAG !in seen {
          seen := seen + {ONGOING_TAG};
          names := names + [ONGOING_TAG];
        }
      }
    }
  }

  // The names a walk has reached once it has passed a month
  ghost predicate Walked(name: string, first: Date, month: int) {
    MonthIndex(first) <= month
    && (IsMonthName(name, MonthIndex(first), month) || IsYearName(name, first.year, (month - 1) / 12))
  }

  // What the walk has gathered: each name reached, once
  ghost predicate Collected(names: seq<string>, seen: set<string>, first: Date, month: int) {
    && Distinct(names)
    && (forall name :: name in seen <==> name in names)
    && (forall name :: name in names <==> Walked(name, first, month))
  }

  function With(names: seq<string>, name: string): seq<string> {
    if name in names then names else names + [name]
  }

  lemma WithAdds(names: seq<string>, name: string)
    requires Distinct(names)
    ensures Distinct(With(names, name))
    ensures forall n :: n in With(names, name) <==> n in names || n == name
  {
  }

  lemma MonthOfIndex(d: Date)
    requires 1 <= d.month <= 12
    ensures MonthName(MonthIndex(d)) == MonthName(d.month) && (MonthIndex(d) - 1) / 12 == d.year
  {
    assert (MonthIndex(d) - 1) % 12 == (d.month - 1) % 12;
  }

  lemma MonthsOneMore(first: int, cursor: Date, name: string)
    requires 1 <= cursor.month <= 12 && first <= MonthIndex(cursor)
    ensures IsMonthName(name, first, MonthIndex(cursor)) <==>
              IsMonthName(name, first, MonthIndex(cursor) - 1) || name == MonthName(cursor.month)
  {
    MonthOfIndex(cursor);
    hide MonthName;
    assert MonthName(MonthIndex(cursor)) == MonthName(cursor.month);
  }

  lemma YearsOneMore(first: Date, cursor: Date, name: string)
    requires 1 <= first.month <= 12 && 1 <= cursor.month <= 12 && MonthIndex(first) < MonthIndex(cursor)
    ensures IsYearName(name, first.year, cursor.year) <==>
              IsYearName(name, first.year, (MonthIndex(cursor) - 2) / 12) || name == Itoa(cursor.year)
  {
    ItoaRoundTrip(cursor.year);
    hide Itoa, Atoi;
    assert first.year <= cursor.year;
    assert (MonthIndex(cursor) - 2) / 12 == if cursor.month == 1 then cursor.year - 1 else cursor.year;
  }

  // Walking one more month reaches its name and the name of its year, and nothing else
  lemma WalkedOneMore(first: Date, cursor: Date, name: string)
    requires 1 <= first.month <= 12 && 1 <= cursor.month <= 12 && MonthIndex(first) <= MonthIndex(cursor)
    ensures Walked(name, first, MonthIndex(cursor)) <==>
              Walked(name, first, MonthIndex(cursor) - 1) || name == MonthName(cursor.month)
                  || name == Itoa(cursor.year)
  {
    MonthsOneMore(MonthIndex(first), cursor, name);
    MonthOfIndex(cursor);
    if MonthIndex(first) < MonthIndex(cursor) {
      YearsOneMore(first, cursor, name);
    } else {
      ItoaRoundTrip(cursor.year);
      assert first.year == cursor.year && !IsMonthName(name, MonthIndex(first), MonthIndex(cursor) - 1);
    }
  }

  lemma CollectedNone(first: Date)
    ensures Collected([], {}, first, MonthIndex(first) - 1)
  {
  }

  lemma CollectOneMore(names: seq<string>, seen: set<string>, first: Date, cursor: Date)
    requires 1 <= first.month <= 12 && 1 <= cursor.month <= 12 && MonthIndex(first) <= MonthIndex(cursor)
    requires Collected(names, seen, first, MonthIndex(cursor) - 1)
    ensures var m, y := MonthName(cursor.month), Itoa(cursor.year);
            && (m in seen <==> m in names)
            && (y in seen + {m} <==> y in With(names, m))
            && Collected(With(With(names, m), y), seen + {m} + {y}, first, MonthIndex(cursor))
  {
    var m, y := MonthName(cursor.month), Itoa(cursor.year);
    WithAdds(names, m);
    WithAdds(With(names, m), y);
    forall name
      ensures Walked(name, first, MonthIndex(cursor)) <==>
                Walked(name, first, MonthIndex(cursor) - 1) || name == m || name == y
    {
      WalkedOneMore(first, cursor, name);
    }
    hide Walked, MonthName, Itoa, With, Distinct;
  }

  lemma CollectedAll(names: seq<string>, seen: set<string>, first: Date, last: Date)
    requires 1 <= first.month <= 12 && 1 <= last.month <= 12
    requires Collected(names, seen, first, if MonthIndex(last) < MonthIndex(first) then MonthIndex(first) - 1
             else MonthIndex(last))
    ensures Distinct(names)
    ensures forall name :: name in names <==> NamesMonths(name, first, last)
    ensures forall name :: name in seen <==> name in names
  {
    MonthOfIndex(last);
  }

  function DateOfMonth(index: int): Date {
    Date((index - 1) / 12, (index - 1) % 12 + 1, 1)
  }

  lemma DayNames(d: Date, start: Date, end: Date, name: string)
    requires Valid(start) && Valid(end) && Valid(d) && !Before(d, start) && !Before(end, d)
    requires name == MonthName(d.month) || name == Itoa(d.year)
    ensures NamesMonths(name, start, end)
  {
    MonthOfIndex(d);
    ItoaRoundTrip(d.year);
    hide MonthName, Itoa, Atoi;
    assert MonthIndex(start) <= MonthIndex(d) <= MonthIndex(end);
    assert MonthName(MonthIndex(d)) == MonthName(d.month);
  }

  // The day of a period that gives it a name: its first day, or the first of a later month
  lemma NamedDay(start: Date, end: Date, name: string) returns (d: Date)
    requires Valid(start) && Valid(end) && !Before(end, start)
    requires NamesMonths(name, start, end)
    ensures Valid(d) && !Before(d, start) && !Before(end, d)
    ensures name == MonthName(d.month) || name == Itoa(d.year)
  {
    if IsMonthName(name, MonthIndex(start), MonthIndex(end)) {
      var i :| MonthIndex(start) <= i <= MonthIndex(end) && name == MonthName(i);
      d := if i == MonthIndex(start) then start else DateOfMonth(i);
      assert MonthIndex(d) == i;
      MonthOfIndex(d);
    } else {
      var y := Atoi(name);
      d := if y == start.year then start else Date(y, 1, 1);
    }
  }

  // Walking months names exactly the months and years of the days covered
  lemma MonthsNameDays(start: Date, end: Date, name: string)
    requires Valid(start) && Valid(end) && !Before(end, start)
    ensures NamesMonths(name, start, end) <==> NamesDays(name, start, end)
  {
    if NamesMonths(name, start, end) {
      var d := NamedDay(start, end, name);
    }
    if NamesDays(name, start, end) {
      var d :| Valid(d) && !Before(d, start) && !Before(end, d) && (name == MonthName(d.month) || name == Itoa(d.year));
      DayNames(d, start, end, name);
    }
  }

  // The last day a period may have is a real day: the same day a hundred years on, or the
  // 1 March after a leap day that is missing there
  lemma HundredYears(d: Date)
    requires Valid(d)
    ensures Valid(AddYears(d, MAX_PERIOD_YEARS)) && Before(d, AddYears(d, MAX_PERIOD_YEARS))
    ensures AddYears(d, MAX_PERIOD_YEARS) == Date(d.year + 100, d.month, d.day)
            || (d.month == 2 && d.day == 29 && d.year % 400 == 0
                && AddYears(d, MAX_PERIOD_YEARS) == Date(d.year + 100, 3, 1))
  {
    CenturyLeap(d.year);
  }

  lemma RemainderBy100(year: int)
    ensures year % 100 == (year % 400) % 100
  {
    assert year - 100 * (4 * (year / 400) + (year % 400) / 100) == (year % 400) % 100;
  }

  lemma RemainderBy4(year: int)
    ensures year % 4 == (year % 400) % 4
  {
    assert year - 4 * (100 * (year / 400) + (year % 400) / 4) == (year % 400) % 4;
  }

  // A remainder by 400 decides whether a year is a leap year
  lemma LeapByRemainder(year: int)
    ensures Leap(year) <==> LeapRemainder(year % 400)
  {
    RemainderBy100(year);
    RemainderBy4(year);
  }

  predicate LeapRemainder(r: int) {
    r == 0 || (r % 4 == 0 && r % 100 != 0)
  }

  lemma CenturyRemainder(r: int)
    requires 0 <= r < 400
    ensures LeapRemainder(r) && !LeapRemainder(if r < 300 then r + 100 else r - 300) <==> r == 0
  {
  }

  lemma CenturyLeap(year: int)
    ensures Leap(year) && !Leap(year + 100) <==> year % 400 == 0
  {
    LeapByRemainder(year);
    LeapByRemainder(year + 100);
    CenturyRemainder(year % 400);
    hide Leap, LeapRemainder;
    assert (year + 100) % 400 == if year % 400 < 300 then year % 400 + 100 else year % 400 - 300;
  }

  // An accepted period walks at most 1202 months, and that many only from 29 February of a
  // year divisible by 400 to 1 March a hundred years on; it touches at most 101 years
  lemma AcceptedWalkIsBounded(start: Date, end: Date)
    requires Valid(start) && Valid(end) && !Before(end, start) && !Before(AddYears(start, MAX_PERIOD_YEARS), end)
    ensures 1 <= MonthIndex(end) - MonthIndex(start) + 1 <= 1202
    ensures MonthIndex(end) - MonthIndex(start) + 1 == 1202 <==>
              start.month == 2 && start.day == 29 && start.year % 400 == 0 && end == Date(start.year + 100, 3, 1)
    ensures end.year - start.year + 1 <= 101
  {
    HundredYears(start);
    CenturyLeap(start.year);
  }

  function MonthNamesSet(): set<string> {
    set i | 1 <= i <= 12 :: MonthName(i)
  }

  function YearNames(first: int, last: int): (s: set<string>)
    decreases last - first
  {
    if last < first then {} else YearNames(first, last - 1) + {Itoa(last)}
  }

  lemma {:induction false} YearNamesSize(first: int, last: int)
    ensures |YearNames(first, last)| <= if last < first then 0 else last - first + 1
    ensures forall y | first <= y <= last :: Itoa(y) in YearNames(first, last)
    decreases last - first
  {
    if first <= last {
      YearNamesSize(first, last - 1);
    }
  }

  lemma MonthNamesSize()
    ensures |MonthNamesSet()| <= 12
    ensures forall i :: MonthName(i) in MonthNamesSet()
  {
    var all := set n | n in MONTH_NAMES;
    DistinctCount(MONTH_NAMES);
    forall i
      ensures MonthName(i) in MonthNamesSet()
    {
      assert MonthName(i) == MonthName((i - 1) % 12 + 1);
    }
    assert MonthNamesSet() <= all;
    SubsetSize(MonthNamesSet(), all);
  }

  // A period gets at most 12 month names, one name a year, and Ongoing
  lemma FewNames(names: seq<string>, start: Date, end: Date)
    requires Distinct(names) && Valid(start) && Valid(end) && !Before(end, start)
    requires forall name | name in names :: NamesMonths(name, start, end) || name == ONGOING_TAG
    ensures |names| <= 12 + (end.year - start.year + 1) + 1
    ensures ONGOING_TAG !in names ==> |names| <= 12 + (end.year - start.year + 1)
  {
    DistinctCount(names);
    MonthNamesSize();
    YearNamesSize(start.year, end.year);
    var all := set n | n in names;
    var periodic := MonthNamesSet() + YearNames(start.year, end.year);
    hide MonthName, Itoa, MonthNamesSet, YearNames;
    forall n | n in all && n != ONGOING_TAG
      ensures n in periodic
    {
    }
    SubsetSize(all, periodic + {ONGOING_TAG});
    if ONGOING_TAG !in names {
      SubsetSize(all, periodic);
    }
  }

  lemma OngoingIsNoMonth(first: Date, last: Date)
    ensures !NamesMonths(ONGOING_TAG, first, last)
  {
    ItoaRoundTrip(Atoi(ONGOING_TAG));
    forall i
      ensures MonthName(i) != ONGOING_TAG
    {
      assert MonthName(i) in MONTH_NAMES;
    }
    hide MonthName, Itoa, Atoi;
  }

  // So one id per date tag of any accepted period is enough
  lemma AcceptedHasFewNames(names: seq<string>, p: Period)
    requires PeriodAccepted(p) && Distinct(names) && forall name :: name in names <==> NamesPeriod(name, p)
    ensures |names| <= MAX_DATE_TAGS
  {
    hide NamesMonths, DaysIn, AddYears;
    FewNames(names, p.start, LastOf(p));
    if p.end.Some? {
      AcceptedWalkIsBounded(p.start, p.end.value);
      OngoingIsNoMonth(p.start, LastOf(p));
    }
  }

  // An open period and a single day are named by their start: one month, one year
  lemma StartNames(day: Date, name: string)
    requires Valid(day)
    ensures NamesMonths(name, day, day) <==> name == MonthName(day.month) || name == Itoa(day.year)
  {
    MonthOfIndex(day);
    ItoaRoundTrip(day.year);
    if name == MonthName(day.month) {
      assert name == MonthName(MonthIndex(day));
    }
  }
}
