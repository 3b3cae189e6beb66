/** Dates from seconds since 1970 (crates/switch-model/src/system.rs), against the Gregorian calendar. */
module Calendar {
  import opened Basics
  import opened VlanRanges

  datatype Date = Date(year: int, month: int, day: int)

  // ----- the calendar -----

  predicate IsLeap(y: int) { y % 4 == 0 && (y % 100 != 0 || y % 400 == 0) }

  function Leap(y: int): nat { if IsLeap(y) then 1 else 0 }

  function DaysIn(y: int, m: int): nat {
    if m == 2 then 28 + Leap(y) else if m == 4 || m == 6 || m == 9 || m == 11 then 30 else 31
  }

  predicate ValidDate(d: Date) { d.year >= 0 && 1 <= d.month <= 12 && 1 <= d.day <= DaysIn(d.year, d.month) }

  /** Days in the years before `y`, counted year by year from year 0. */
  function DaysBeforeYear(y: nat): nat { if y == 0 then 0 else DaysBeforeYear(y - 1) + 365 + Leap(y - 1) }

  /** Days in the months of `y` before `m`. */
  function DaysBeforeMonth(y: int, m: int): nat { if m <= 1 then 0 else DaysBeforeMonth(y, m - 1) + DaysIn(y, m - 1) }

  /** Days since 0000-01-01. */
  function DayNumber(d: Date): int
    requires d.year >= 0
  {
    DaysBeforeYear(d.year) + DaysBeforeMonth(d.year, d.month) + d.day - 1
  }

  const EPOCH := Date(1970, 1, 1)

  function Next(d: Date): Date {
    if d.day < DaysIn(d.year, d.month) then Date(d.year, d.month, d.day + 1)
    else if d.month < 12 then Date(d.year, d.month + 1, 1)
    else Date(d.year + 1, 1, 1)
  }

  // ----- the algorithm -----

  function Scaled(doe: int): int { doe - doe / 1460 + doe / 36524 - doe / 146096 }

  /** Days of the years before year `y` of an era, years starting in March. */
  function Start(y: int): int { 365 * y + y / 4 - y / 100 }

  function YearOfEra(doe: int): int { Scaled(doe) / 365 }

  /** The date of day `doy` of the year that starts in March of `year`. */
  function FromDayOfYear(year: int, doy: int): Date {
    var mp := (5 * doy + 2) / 153;
    var day := doy - (153 * mp + 2) / 5 + 1;
    var month := if mp < 10 then mp + 3 else mp - 9;
    Date(year + (if month <= 2 then 1 else 0), month, day)
  }

  /** The year a day lies in, years starting in March, and the days before it in that year. */
  function YearAndDay(z: nat): (int, int) {
    var era := z / 146097;
    var doe := z - era * 146097;
    var yoe := YearOfEra(doe);
    (yoe + era * 400, doe - Start(yoe))
  }

  /** The date of a day since 1970-01-01; 719468 days lie between 0000-03-01 and then. */
  function DateOf(days: nat): Date {
    var (year, doy) := YearAndDay(days + 719468);
    FromDayOfYear(year, doy)
  }

  // ----- years of an era -----

  lemma ScaledStep(x: nat)
    requires x < 146096
    ensures Scaled(x) <= Scaled(x + 1)
  {
    assert (x + 1) / 1460 <= x / 1460 + 1 && (x + 1) / 36524 >= x / 36524;
    assert x / 146096 == 0;
    if x + 1 == 146096 {
      assert (x + 1) / 1460 == 100 && x / 1460 == 100 && (x + 1) / 36524 == 4 && x / 36524 == 3;
    } else {
      assert (x + 1) / 146096 == 0;
    }
  }

  lemma {:induction false} ScaledMonotone(x: nat, y: nat)
    requires x <= y <= 146096
    ensures Scaled(x) <= Scaled(y)
    decreases y - x
  {
    if x < y {
      ScaledStep(y - 1);
      ScaledMonotone(x, y - 1);
    }
  }

  /** The first day of a year of the era. */
  lemma FirstDay(y: nat)
    requires y < 400
    ensures 0 <= Start(y) <= 146096 && Scaled(Start(y)) == 365 * y
  {
    var q, r, h, s := y / 4, y % 4, y / 100, y % 100;
    assert y == 4 * q + r && y == 100 * h + s && h < 4;
    assert q == 25 * h + s / 4;
    var x := Start(y);
    assert x == 1460 * q + (365 * r + q - h) && 0 <= 365 * r + q - h < 1460;
    assert x == 36524 * h + (365 * s + s / 4) && 0 <= 365 * s + s / 4 < 36524;
    assert x / 1460 == q && x / 36524 == h && x / 146096 == 0;
  }

  /** The last day of a year of the era. */
  lemma LastDay(y: nat)
    requires y < 399
    ensures 0 <= Start(y + 1) - 1 <= 146096 && 365 * y <= Scaled(Start(y + 1) - 1) < 365 * (y + 1)
  {
    var n := y + 1;
    var q, r, h, s := n / 4, n % 4, n / 100, n % 100;
    assert n == 4 * q + r && n == 100 * h + s && h < 4;
    assert q == 25 * h + s / 4;
    var x := Start(n) - 1;
    assert x == 1460 * q + (365 * r + q - h - 1);
    assert 0 <= 365 * r + q - h - 1 < 1460;
    assert x / 1460 == q;
    if s == 0 {
      assert x == 36524 * (h - 1) + 36523;
      assert x / 36524 == h - 1;
    } else {
      assert x == 36524 * h + (365 * s + s / 4 - 1) && 0 <= 365 * s + s / 4 - 1 < 36524;
      assert x / 36524 == h;
    }
    assert x / 146096 == 0;
  }

  lemma FindYear(doe: nat, y: nat)
    requires doe < 146097 && y < 400 && Start(y) <= doe
    requires y < 399 ==> doe < Start(y + 1)
    ensures YearOfEra(doe) == y
  {
    FirstDay(y);
    ScaledMonotone(Start(y), doe);
    if y < 399 {
      LastDay(y);
      ScaledMonotone(doe, Start(y + 1) - 1);
    } else {
      ScaledMonotone(doe, 146096);
    }
  }

  /** Some year of the era has the day. */
  lemma {:induction false} SomeYear(doe: nat, y: nat) returns (r: nat)
    requires doe < 146097 && y < 400 && Start(y) <= doe
    ensures r < 400 && Start(r) <= doe && (r < 399 ==> doe < Start(r + 1))
    decreases 400 - y
  {
    if y < 399 && Start(y + 1) <= doe { r := SomeYear(doe, y + 1); } else { r := y; }
  }

  /** `YearOfEra` finds the year a day lies in, and the day's place in it. */
  lemma YearFound(doe: nat)
    requires doe < 146097
    ensures var y := YearOfEra(doe); 0 <= y < 400 && 0 <= doe - Start(y) <= 364 + Leap(y + 1)
  {
    var y := SomeYear(doe, 0);
    FindYear(doe, y);
    if y < 399 {
      var n := y + 1;
      assert n / 4 - y / 4 == if n % 4 == 0 then 1 else 0;
      assert n / 100 - y / 100 == if n % 100 == 0 then 1 else 0;
      assert n % 400 != 0;
    } else {
      assert Start(399) == 145731;
    }
  }

  // ----- months -----

  /** The day lies in its month, and the months before it add up. */
  lemma MonthFound(year: int, doy: int)
    requires year >= 0 && 0 <= doy <= 364 + Leap(year + 1)
    ensures var d := FromDayOfYear(year, doy);
            && ValidDate(d) && d.year == year + (if d.month <= 2 then 1 else 0)
            && (d.month >= 3 ==> DaysBeforeMonth(d.year, d.month) + d.day - 1 == 59 + Leap(year) + doy)
            && (d.month <= 2 ==> DaysBeforeMonth(d.year, d.month) + d.day - 1 == doy - 306)
  {
    var mp := (5 * doy + 2) / 153;
    assert 0 <= mp <= 11 && (153 * mp + 2) / 5 <= doy;
    MonthLengths(year, mp);
    MonthLengths(year + 1, mp);
  }

  lemma MonthLengths(y: int, mp: int)
    requires 0 <= mp <= 11
    ensures mp < 10 ==> DaysBeforeMonth(y, mp + 3) == 59 + Leap(y) + (153 * mp + 2) / 5
    ensures mp < 11 && mp != 9 ==>
            DaysIn(y, if mp < 10 then mp + 3 else mp - 9) == (153 * (mp + 1) + 2) / 5 - (153 * mp + 2) / 5
    ensures mp == 9 ==> DaysIn(y, 12) == 31
    ensures DaysBeforeMonth(y, 1) == 0 && DaysBeforeMonth(y, 2) == 31
  {
    assert DaysBeforeMonth(y, 2) == 31;
    assert DaysBeforeMonth(y, 3) == 59 + Leap(y);
    assert DaysBeforeMonth(y, 5) == 120 + Leap(y);
    assert DaysBeforeMonth(y, 7) == 181 + Leap(y);
    assert DaysBeforeMonth(y, 9) == 243 + Leap(y);
    assert DaysBeforeMonth(y, 11) == 304 + Leap(y);
  }

  // ----- the date -----

  lemma {:induction false} YearDays(y: nat)
    ensures DaysBeforeYear(y) + Leap(y) == 365 * y + y / 4 - y / 100 + y / 400 + 1
    decreases y
  {
    if y > 0 {
      YearDays(y - 1);
      LeapCount(y);
    }
  }

  lemma Step4(y: nat)
    requires y > 0
    ensures y / 4 - (y - 1) / 4 == if y % 4 == 0 then 1 else 0
  {
  }

  lemma Step100(y: nat)
    requires y > 0
    ensures y / 100 - (y - 1) / 100 == if y % 100 == 0 then 1 else 0
  {
  }

  lemma Step400(y: nat)
    requires y > 0
    ensures y / 400 - (y - 1) / 400 == if y % 400 == 0 then 1 else 0
  {
  }

  lemma Multiples(y: int)
    ensures (y % 400 == 0 ==> y % 100 == 0) && (y % 100 == 0 ==> y % 4 == 0)
  {
    if y % 100 == 0 { assert y == 4 * (25 * (y / 100)); }
    if y % 400 == 0 { assert y == 100 * (4 * (y / 400)); }
  }

  lemma LeapCount(y: nat)
    requires y > 0
    ensures y / 4 - (y - 1) / 4 - (y / 100 - (y - 1) / 100) + (y / 400 - (y - 1) / 400) == Leap(y)
  {
    Step4(y);
    Step100(y);
    Step400(y);
    Multiples(y);
  }

  lemma EpochNumber()
    ensures DayNumber(EPOCH) == 719528
  {
    YearDays(1970);
  }

  lemma Shift4(y: nat, k: nat)
    ensures (y + 4 * k) / 4 == y / 4 + k && (y + 4 * k) % 4 == y % 4
  {
  }

  lemma Shift100(y: nat, k: nat)
    ensures (y + 100 * k) / 100 == y / 100 + k && (y + 100 * k) % 100 == y % 100
  {
  }

  lemma Shift400(y: nat, k: nat)
    ensures (y + 400 * k) / 400 == y / 400 + k && (y + 400 * k) % 400 == y % 400
  {
  }

  lemma EraLeap(era: nat, y: nat)
    ensures Leap(y + era * 400) == Leap(y)
  {
    Shift4(y, 100 * era);
    Shift100(y, 4 * era);
    Shift400(y, era);
  }

  /** Days before the March of a year, counted from the March of year 0. */
  lemma EraDays(era: nat, y: nat)
    requires y < 400
    ensures var n := y + era * 400; 365 * n + n / 4 - n / 100 + n / 400 == era * 146097 + Start(y)
  {
    Shift4(y, 100 * era);
    Shift100(y, 4 * era);
    Shift400(y, era);
  }

  lemma NumberOf(n: nat, doy: int)
    requires 0 <= doy <= 364 + Leap(n + 1)
    ensures var d := FromDayOfYear(n, doy);
            ValidDate(d) && DayNumber(d) == 365 * n + n / 4 - n / 100 + n / 400 + doy + 60
  {
    MonthFound(n, doy);
    YearDays(n);
    assert DaysBeforeYear(n + 1) == DaysBeforeYear(n) + 365 + Leap(n);
  }

  lemma Placed(era: nat, doe: nat, y: int)
    requires doe < 146097 && y == YearOfEra(doe)
    ensures 0 <= y < 400 && 0 <= doe - Start(y) <= 364 + Leap(y + era * 400 + 1)
    ensures var n := y + era * 400; 365 * n + n / 4 - n / 100 + n / 400 + (doe - Start(y)) == era * 146097 + doe
  {
    YearFound(doe);
    EraDays(era, y);
    EraLeap(era, y + 1);
  }

  lemma EraSplit(z: nat)
    ensures 0 <= z - z / 146097 * 146097 < 146097
  {
  }

  lemma YearAndDayFound(z: nat)
    ensures var (n, doy) := YearAndDay(z);
            n >= 0 && 0 <= doy <= 364 + Leap(n + 1) && 365 * n + n / 4 - n / 100 + n / 400 + doy == z
  {
    EraSplit(z);
    var era := z / 146097;
    var doe := z - era * 146097;
    Placed(era, doe, YearOfEra(doe));
  }

  lemma IsNumbered(n: int, doy: int, z: nat)
    requires n >= 0 && 0 <= doy <= 364 + Leap(n + 1) && 365 * n + n / 4 - n / 100 + n / 400 + doy == z
    ensures ValidDate(FromDayOfYear(n, doy)) && DayNumber(FromDayOfYear(n, doy)) == z + 60
  {
    NumberOf(n, doy);
  }

  /** Every day since 1970 gets a date of the calendar, and exactly that many days lie between. */
  lemma DateCorrect(days: nat)
    ensures ValidDate(DateOf(days)) && DayNumber(DateOf(days)) - DayNumber(EPOCH) == days
  {
    var (n, doy) := YearAndDay(days + 719468);
    YearAndDayFound(days + 719468);
    IsNumbered(n, doy, days + 719468);
    EpochNumber();
  }

  // ----- consecutive days -----

  lemma {:induction false} YearsGrow(a: nat, b: nat)
    requires a <= b
    ensures DaysBeforeYear(a) <= DaysBeforeYear(b)
    decreases b - a
  {
    if a < b { YearsGrow(a, b - 1); }
  }

  lemma {:induction false} MonthsGrow(y: int, a: int, b: int)
    requires 1 <= a < b
    ensures DaysBeforeMonth(y, a) + DaysIn(y, a) <= DaysBeforeMonth(y, b)
    decreases b - a
  {
    if a < b - 1 { MonthsGrow(y, a, b - 1); }
  }

  /** The day lies within its year. */
  lemma InYear(d: Date)
    requires ValidDate(d)
    ensures 0 <= DayNumber(d) - DaysBeforeYear(d.year) < 365 + Leap(d.year)
  {
    if d.month < 12 { MonthsGrow(d.year, d.month, 12); }
    MonthLengths(d.year, 8);
    MonthLengths(d.year, 9);
  }

  /** A day count belongs to one date only. */
  lemma SameDate(a: Date, b: Date)
    requires ValidDate(a) && ValidDate(b) && DayNumber(a) == DayNumber(b)
    ensures a == b
  {
    InYear(a);
    InYear(b);
    if a.year < b.year { YearsGrow(a.year + 1, b.year); }
    if b.year < a.year { YearsGrow(b.year + 1, a.year); }
    if a.month < b.month { MonthsGrow(a.year, a.month, b.month); }
    if b.month < a.month { MonthsGrow(a.year, b.month, a.month); }
  }

  lemma NextNumber(d: Date)
    requires ValidDate(d)
    ensures ValidDate(Next(d)) && DayNumber(Next(d)) == DayNumber(d) + 1
  {
    MonthLengths(d.year, 9);
    assert DaysBeforeMonth(d.year, 12) == 334 + Leap(d.year);
  }

  /** Consecutive days get consecutive dates. */
  lemma Consecutive(days: nat)
    ensures DateOf(days + 1) == Next(DateOf(days))
  {
    DateCorrect(days);
    DateCorrect(days + 1);
    NextNumber(DateOf(days));
    SameDate(DateOf(days + 1), Next(DateOf(days)));
  }

  // ----- as text -----

  function Padded(s: string, width: nat): (r: string)
    ensures |r| == if |s| < width then width else |s|
    decreases width - |s|
  {
    if |s| < width then Padded("0" + s, width) else s
  }

  function Number(n: int, width: nat): string { Padded(ToText(if n < 0 then 0 else n), width) }

  /** The date and time in UTC. */
  function DateText(seconds: nat): string {
    var d, t := DateOf(seconds / 86400), seconds % 86400;
    Number(d.year, 4) + "-" + Number(d.month, 2) + "-" + Number(d.day, 2) + "T"
    + Number(t / 3600, 2) + ":" + Number(t / 60 % 60, 2) + ":" + Number(t % 60, 2) + "Z"
  }

  function Pow10(w: nat): (p: nat)
    ensures p > 0
  {
    if w == 0 then 1 else 10 * Pow10(w - 1)
  }

  lemma {:induction false} TextLength(n: nat, w: nat)
    requires w > 0
    ensures |ToText(n)| <= w <==> n < Pow10(w)
    decreases w
  {
    if w == 1 {
      assert Pow10(1) == 10 * Pow10(0);
      if n >= 10 { ToTextDigits(n / 10); }
    } else if n >= 10 {
      TextLength(n / 10, w - 1);
      assert n < 10 * Pow10(w - 1) <==> n / 10 < Pow10(w - 1);
    } else {
      PowGrows(w);
    }
  }

  lemma PowGrows(w: nat)
    requires w > 1
    ensures Pow10(w) >= 10
  {
    assert Pow10(w) == 10 * Pow10(w - 1);
  }

  lemma {:induction false} DigitsValueZero(s: string)
    requires AllDigits(s)
    ensures AllDigits("0" + s) && DigitsValue("0" + s) == DigitsValue(s)
    decreases |s|
  {
    var t := "0" + s;
    if s == [] {
      assert t[..0] == [] && t[0] == '0';
    } else {
      assert t[..|t| - 1] == "0" + s[..|s| - 1] && t[|t| - 1] == s[|s| - 1];
      DigitsValueZero(s[..|s| - 1]);
    }
  }

  lemma {:induction false} PaddedValue(s: string, width: nat)
    requires AllDigits(s)
    ensures AllDigits(Padded(s, width)) && DigitsValue(Padded(s, width)) == DigitsValue(s)
    decreases width - |s|
  {
    if |s| < width {
      DigitsValueZero(s);
      PaddedValue("0" + s, width);
    }
  }

  /** A padded number reads back, and has its width exactly if it is small enough. */
  lemma NumberReads(n: nat, width: nat)
    requires width > 0
    ensures AllDigits(Number(n, width)) && DigitsValue(Number(n, width)) == n
    ensures |Number(n, width)| == width <==> n < Pow10(width)
  {
    ToTextDigits(n);
    PaddedValue(ToText(n), width);
    TextLength(n, width);
  }

  lemma TenThousand()
    ensures Pow10(2) == 100 && Pow10(4) == 10000 && DaysBeforeYear(10000) == 719528 + 2932897
  {
    assert Pow10(1) == 10;
    assert Pow10(3) == 1000;
    YearDays(10000);
  }

  lemma FourDigitYear(days: nat)
    ensures DateOf(days).year < 10000 <==> days < 2932897
  {
    DateCorrect(days);
    EpochNumber();
    TenThousand();
    var d := DateOf(days);
    InYear(d);
    if d.year < 10000 { YearsGrow(d.year + 1, 10000); } else { YearsGrow(10000, d.year); }
  }

  /** The time of day. */
  lemma TimeOfDay(t: nat)
    requires t < 86400
    ensures t / 3600 < 24 && t / 60 % 60 < 60 && t % 60 < 60 && t / 3600 * 3600 + t / 60 % 60 * 60 + t % 60 == t
  {
    assert t / 60 / 60 == t / 3600;
  }

  lemma Fields(y: string, m: string, d: string, h: string, n: string, s: string)
    requires |y| == 4 && |m| == 2 && |d| == 2 && |h| == 2 && |n| == 2 && |s| == 2
    ensures var t := y + "-" + m + "-" + d + "T" + h + ":" + n + ":" + s + "Z";
            |t| == 20 && t[..4] == y && t[5..7] == m && t[8..10] == d && t[11..13] == h && t[14..16] == n
                && t[17..19] == s
  {
  }

  /**
   * The text has the form of section 5.6 of RFC 3339, with a year of four digits, exactly up to
   * the end of the year 9999; and its fields then read as the date and the time of day.
   */
  lemma TextCorrect(seconds: nat)
    ensures |Number(DateOf(seconds / 86400).year, 4)| == 4 <==> seconds < 253402300800
    ensures seconds < 253402300800 ==>
              var t, d := DateText(seconds), DateOf(seconds / 86400);
              && |t| == 20
              && DigitsValue(t[..4]) == d.year && DigitsValue(t[5..7]) == d.month && DigitsValue(t[8..10]) == d.day
              && (DayNumber(d) - DayNumber(EPOCH)) * 86400
                 + DigitsValue(t[11..13]) * 3600 + DigitsValue(t[14..16]) * 60 + DigitsValue(t[17..19]) == seconds
  {
    var days, t := seconds / 86400, seconds % 86400;
    var d := DateOf(days);
    DateCorrect(days);
    FourDigitYear(days);
    TenThousand();
    NumberReads(d.year, 4);
    assert days < 2932897 <==> seconds < 253402300800;
    if seconds < 253402300800 {
      TimeOfDay(t);
      TwoDigits(d.month);
      TwoDigits(d.day);
      TwoDigits(t / 3600);
      TwoDigits(t / 60 % 60);
      TwoDigits(t % 60);
      Fields(Number(d.year, 4), Number(d.month, 2), Number(d.day, 2), Number(t / 3600, 2), Number(t / 60 % 60, 2),
             Number(t % 60, 2));
    }
  }

  lemma TwoDigits(n: int)
    requires 0 <= n < 100
    ensures |Number(n, 2)| == 2 && DigitsValue(Number(n, 2)) == n
  {
    NumberReads(n, 2);
    TenThousand();
  }
}
