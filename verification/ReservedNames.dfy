/** The names no user may give to a tag or a group, against the names date tags can have. */
module ReservedNames {
  import opened Options
  import opened DateTags
  import opened DateTagTheorems
  import opened Text

  // All days of the period lie in years of four digits
  predicate InFourDigitYears(p: Period) {
    PeriodAccepted(p) && 1000 <= p.start.year && LastOf(p).year <= 9999
  }

  predicate IsDigit(c: char) {
    '0' <= c <= '9'
  }

  lemma {:induction false} DigitsAreDigits(n: nat)
    ensures forall c | c in Digits(n) :: IsDigit(c)
  {
    if n >= 10 {
      DigitsAreDigits(n / 10);
    }
  }

  lemma DigitsLength(n: nat)
    ensures Digits(n) != [] && |Digits(n)| == if n < 10 then 1 else |Digits(n / 10)| + 1
  {
  }

  lemma FourDigits(n: nat)
    ensures |Digits(n)| == 4 <==> 1000 <= n <= 9999
  {
    DigitsLength(n);
    DigitsLength(n / 10);
    DigitsLength(n / 10 / 10);
    DigitsLength(n / 10 / 10 / 10);
    hide Digits;
    if n / 10 / 10 / 10 >= 10 {
      DigitsLength(n / 10 / 10 / 10 / 10);
    }
  }

  lemma OneMoreDigit(v: nat, c: char)
    requires v >= 1 && IsDigit(c)
    ensures Digits(10 * v + (c as int - '0' as int)) == Digits(v) + [c]
  {
    var n := 10 * v + (c as int - '0' as int);
    assert n / 10 == v && n % 10 == c as int - '0' as int;
    assert DigitChar(n % 10) == c;
  }

  // A numeral without a leading zero is that of its value
  lemma {:induction false} ValueRoundTrip(s: string)
    requires s != [] && s[0] != '0' && forall c | c in s :: IsDigit(c)
    ensures ValueOfDigits(s) >= 1 && Digits(ValueOfDigits(s)) == s
    decreases |s|
  {
    var n := |s| - 1;
    assert s[n] in s;
    if n == 0 {
      assert ValueOfDigits(s[..n]) == 0;
      assert DigitChar(ValueOfDigits(s)) == s[0];
    } else {
      assert forall c | c in s[..n] :: c in s;
      ValueRoundTrip(s[..n]);
      OneMoreDigit(ValueOfDigits(s[..n]), s[n]);
      assert s == s[..n] + [s[n]];
      hide Digits;
    }
  }

  lemma FirstIsNoDigit(name: string)
    requires name in MONTH_NAMES || name == ONGOING_TAG
    ensures name != [] && !IsDigit(name[0]) && name[0] != '-'
  {
  }

  // A year's name is reserved exactly when it has four digits
  lemma YearIsReservedExactly(year: int)
    ensures IsReserved(Itoa(year)) <==> 1000 <= year <= 9999
  {
    var name := Itoa(year);
    ItoaRoundTrip(year);
    if name in MONTH_NAMES || name == ONGOING_TAG {
      FirstIsNoDigit(name);
      assert false;
    }
    if year >= 0 {
      DigitsAreDigits(year);
      FourDigits(year);
    } else {
      assert name[0] == '-' && name[0] in name;
    }
    hide Digits, Atoi;
  }

  // A name of a day's month or year, or Ongoing, for days in years of four digits
  ghost predicate NamesSomeDay(name: string) {
    exists p: Period :: InFourDigitYears(p) && NamesADay(name, p)
  }

  lemma NamedIsReserved(name: string, p: Period)
    requires InFourDigitYears(p) && NamesADay(name, p)
    ensures IsReserved(name)
    ensures IsYear(name) ==> name[0] != '0'
  {
    if NamesDays(name, p.start, LastOf(p)) {
      var d :| Valid(d) && !Before(d, p.start) && !Before(LastOf(p), d)
               && (name == MonthName(d.month) || name == Itoa(d.year));
      if name == MonthName(d.month) {
        assert name in MONTH_NAMES;
        FirstIsNoDigit(name);
      } else {
        YearIsReservedExactly(d.year);
        NoLeadingZero(d.year);
      }
    } else {
      FirstIsNoDigit(name);
    }
  }

  lemma {:induction false} NoLeadingZero(n: nat)
    requires n > 0
    ensures Digits(n)[0] != '0'
  {
    if n >= 10 {
      NoLeadingZero(n / 10);
      DigitsLength(n / 10);
    }
  }

  lemma OneDayPeriod(d: Day, ongoing: bool, name: string)
    requires 1000 <= d.year <= 9999
    requires name == MonthName(d.month) || name == Itoa(d.year) || (ongoing && name == ONGOING_TAG)
    ensures NamesSomeDay(name)
  {
    var p := Period(d, None, ongoing);
    hide MonthName, Itoa;
    assert Valid(d) && !Before(d, d);
    assert InFourDigitYears(p) && NamesADay(name, p);
  }

  lemma MonthIsNamed(i: nat)
    requires i < 12
    ensures MonthName(i + 1) == MONTH_NAMES[i]
  {
  }

  lemma MonthNamesADay(name: string)
    requires name in MONTH_NAMES
    ensures NamesSomeDay(name)
  {
    var i :| 0 <= i < 12 && MONTH_NAMES[i] == name;
    MonthIsNamed(i);
    hide MonthName, NamesSomeDay;
    OneDayPeriod(Date(2000, i + 1, 1), false, name);
  }

  lemma YearNamesADay(name: string)
    requires IsYear(name) && name[0] != '0'
    ensures NamesSomeDay(name)
  {
    var y := ValueOfDigits(name);
    ValueRoundTrip(name);
    FourDigits(y);
    assert Itoa(y) == name;
    hide Digits, Itoa, ValueOfDigits, NamesSomeDay;
    OneDayPeriod(Date(y, 1, 1), false, name);
  }

  lemma ReservedNamesADay(name: string)
    requires IsReserved(name) && (IsYear(name) ==> name[0] != '0')
    ensures NamesSomeDay(name)
  {
    hide NamesSomeDay, IsYear;
    if name in MONTH_NAMES {
      MonthNamesADay(name);
    } else if name == ONGOING_TAG {
      OneDayPeriod(Date(2000, 1, 1), true, name);
    } else {
      YearNamesADay(name);
    }
  }

  // The reserved names are the names the date tags of years of four digits can have, and
  // those of four digits that begin with a zero, which no date tag has
  lemma ReservedExactly(name: string)
    ensures IsReserved(name) <==> NamesSomeDay(name) || (IsYear(name) && name[0] == '0')
    ensures NamesSomeDay(name) ==> !(IsYear(name) && name[0] == '0')
  {
    if p: Period :| InFourDigitYears(p) && NamesADay(name, p) {
      NamedIsReserved(name, p);
    }
    if IsReserved(name) && !(IsYear(name) && name[0] == '0') {
      ReservedNamesADay(name);
    }
    hide NamesADay, NamesSomeDay;
  }
}
