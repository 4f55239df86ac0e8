/** Proleptic Gregorian dates as Python's `datetime.date` counts them, the
    text forms the dashboard exchanges with the database (`strftime("%d-%b-%Y")`
    going out, `TO_CHAR(..., 'DD-MON-YYYY HH24:MI:SS')` coming back), and the
    default date window of the date picker. */
module Calendar {
  import opened Text

  datatype Date = Date(year: int, month: int, day: int)

  datatype DateTime = DateTime(date: Date, hour: int, minute: int, second: int)

  predicate IsLeap(y: int) {
    y % 4 == 0 && (y % 100 != 0 || y % 400 == 0)
  }

  function DaysInMonth(y: int, m: int): (n: int)
    ensures 28 <= n <= 31
  {
    if m == 2 then (if IsLeap(y) then 29 else 28)
    else if m == 4 || m == 6 || m == 9 || m == 11 then 30
    else 31
  }

  /** A calendar date Python can represent (the upper bound of year 9999 is
      not imposed here). */
  predicate Valid(d: Date) {
    d.year >= 1 && 1 <= d.month <= 12 && 1 <= d.day <= DaysInMonth(d.year, d.month)
  }

  predicate ValidTime(t: DateTime) {
    Valid(t.date) && 0 <= t.hour < 24 && 0 <= t.minute < 60 && 0 <= t.second < 60
  }

  function DaysInYear(y: int): int {
    if IsLeap(y) then 366 else 365
  }

  function DaysBeforeYear(y: int): nat
    requires y >= 1
  {
    if y == 1 then 0 else DaysBeforeYear(y - 1) + DaysInYear(y - 1)
  }

  /** Days in the months of year `y` before month `m` (Python's
      `_days_before_month`). */
  function DaysBeforeMonth(y: int, m: int): nat
    requires 1 <= m <= 12
  {
    var leap := if IsLeap(y) then 1 else 0;
    if m == 1 then 0 else if m == 2 then 31
    else if m == 3 then 59 + leap else if m == 4 then 90 + leap
    else if m == 5 then 120 + leap else if m == 6 then 151 + leap
    else if m == 7 then 181 + leap else if m == 8 then 212 + leap
    else if m == 9 then 243 + leap else if m == 10 then 273 + leap
    else if m == 11 then 304 + leap else 334 + leap
  }

  /** Python's `date.toordinal()`: 0001-01-01 is day 1. */
  function Ordinal(d: Date): (n: int)
    requires Valid(d)
    ensures n >= 1
  {
    DaysBeforeYear(d.year) + DaysBeforeMonth(d.year, d.month) + d.day
  }

  /** `d + timedelta(days=1)`. */
  function NextDay(d: Date): (e: Date)
    requires Valid(d)
    ensures Valid(e) && Ordinal(e) == Ordinal(d) + 1
  {
    if d.day < DaysInMonth(d.year, d.month) then Date(d.year, d.month, d.day + 1)
    else if d.month < 12 then Date(d.year, d.month + 1, 1)
    else Date(d.year + 1, 1, 1)
  }

  /** `d - timedelta(days=1)`, for every date after 0001-01-01. */
  function PrevDay(d: Date): (e: Date)
    requires Valid(d) && Ordinal(d) > 1
    ensures Valid(e) && Ordinal(e) == Ordinal(d) - 1
    ensures NextDay(e) == d
  {
    if d.day > 1 then Date(d.year, d.month, d.day - 1)
    else if d.month > 1 then Date(d.year, d.month - 1, DaysInMonth(d.year, d.month - 1))
    else Date(d.year - 1, 12, 31)
  }

  /** Python's `date.fromordinal(n)`. */
  function FromOrdinal(n: int): (d: Date)
    requires n >= 1
    ensures Valid(d) && Ordinal(d) == n
  {
    if n == 1 then Date(1, 1, 1) else NextDay(FromOrdinal(n - 1))
  }

  /** Every date is the one its ordinal names, so dates and ordinals are in
      one-to-one correspondence. */
  lemma {:induction false} OrdinalInverse(d: Date)
    requires Valid(d)
    ensures FromOrdinal(Ordinal(d)) == d
    decreases Ordinal(d)
  {
    var n := Ordinal(d);
    if n == 1 {
      FirstDay(d);
    } else {
      var p := PrevDay(d);
      OrdinalInverse(p);
      FromOrdinalStep(n, p, d);
    }
  }

  lemma FromOrdinalStep(n: int, p: Date, d: Date)
    requires n >= 2 && Valid(p) && FromOrdinal(n - 1) == p && NextDay(p) == d
    ensures FromOrdinal(n) == d
  {
  }

  lemma FirstDay(d: Date)
    requires Valid(d) && Ordinal(d) == 1
    ensures d == Date(1, 1, 1)
  {
  }

  lemma OrdinalInjective(d: Date, e: Date)
    requires Valid(d) && Valid(e) && Ordinal(d) == Ordinal(e)
    ensures d == e
  {
    OrdinalInverse(d);
    OrdinalInverse(e);
  }

  /** `date.weekday()`: Monday is 0 and Sunday is 6. */
  function Weekday(d: Date): (w: int)
    requires Valid(d)
    ensures 0 <= w < 7
  {
    (Ordinal(d) + 6) % 7
  }

  /** The day after a Sunday is a Monday; otherwise the weekday steps by one. */
  lemma WeekdayNext(d: Date)
    requires Valid(d)
    ensures Weekday(NextDay(d)) == if Weekday(d) == 6 then 0 else Weekday(d) + 1
  {
    var o := Ordinal(d);
    assert Ordinal(NextDay(d)) == o + 1;
    ModSeven(o + 6, Weekday(d), Weekday(NextDay(d)));
  }

  lemma ModSeven(x: int, w: int, v: int)
    requires w == x % 7 && v == (x + 1) % 7
    ensures v == if w == 6 then 0 else w + 1
  {
    var q := x / 7;
    assert x == 7 * q + w;
    if w == 6 {
      assert x + 1 == 7 * (q + 1);
    } else {
      assert x + 1 == 7 * q + (w + 1);
    }
  }

  /** `d - timedelta(days=k)`; Python raises OverflowError before year 1. */
  function MinusDays(d: Date, k: nat): (r: Option<Date>)
    requires Valid(d)
    ensures r.Some? <==> Ordinal(d) - k >= 1
    ensures r.Some? ==> Valid(r.value) && Ordinal(r.value) == Ordinal(d) - k
  {
    if Ordinal(d) - k >= 1 then Some(FromOrdinal(Ordinal(d) - k)) else None
  }

  /** The bounds and the default selection of the date-range picker. */
  datatype DateWindow = DateWindow(earliest: Date, start: Date, end: Date, latest: Date)

  /** `yesterday = today - 1 day`, `pull_range = yesterday - 60 days` and the
      default selection `[yesterday - 1 day, yesterday]` (`today - 2 days` in
      the home page): the picker allows `[pull_range, yesterday]`. */
  function DefaultWindow(today: Date): (w: Option<DateWindow>)
    requires Valid(today)
    ensures w.Some? <==> Ordinal(today) > 61
    ensures w.Some? ==>
      && Valid(w.value.earliest) && Valid(w.value.start) && Valid(w.value.end) && Valid(w.value.latest)
      && Ordinal(w.value.latest) == Ordinal(today) - 1
      && w.value.end == w.value.latest
      && Ordinal(w.value.start) == Ordinal(today) - 2
      && Ordinal(w.value.earliest) == Ordinal(w.value.latest) - 60
      && Ordinal(w.value.earliest) <= Ordinal(w.value.start) <= Ordinal(w.value.end) <= Ordinal(w.value.latest)
  {
    match MinusDays(today, 1)
    case None => None
    case Some(yesterday) =>
      match MinusDays(yesterday, 60)
      case None => None
      case Some(pullRange) =>
        match MinusDays(yesterday, 1)
        case None => None
        case Some(dayBefore) => Some(DateWindow(pullRange, dayBefore, yesterday, yesterday))
  }

  /** `%b` in the C locale. */
  function MonthName(m: int): (name: string)
    ensures |name| == 3
  {
    if m == 1 then "Jan" else if m == 2 then "Feb" else if m == 3 then "Mar"
    else if m == 4 then "Apr" else if m == 5 then "May" else if m == 6 then "Jun"
    else if m == 7 then "Jul" else if m == 8 then "Aug" else if m == 9 then "Sep"
    else if m == 10 then "Oct" else if m == 11 then "Nov" else "Dec"
  }

  function UpperChar(c: char): char {
    if 'a' <= c <= 'z' then (c as int - 32) as char else c
  }

  function LowerChar(c: char): char {
    if 'A' <= c <= 'Z' then (c as int + 32) as char else c
  }

  function Upper(s: string): (r: string)
    ensures |r| == |s| && forall i :: 0 <= i < |s| ==> r[i] == UpperChar(s[i])
  {
    seq(|s|, i requires 0 <= i < |s| => UpperChar(s[i]))
  }

  /** Oracle's month-name match for `MON`, which ignores letter case. */
  predicate SameName(t: string, name: string)
    requires |name| == 3
  {
    |t| == 3 && LowerChar(t[0]) == LowerChar(name[0])
    && LowerChar(t[1]) == LowerChar(name[1]) && LowerChar(t[2]) == LowerChar(name[2])
  }

  /** The month a three-letter abbreviation names, in any letter case. */
  function MonthNumber(t: string): (m: Option<int>)
    ensures m.Some? ==> 1 <= m.value <= 12 && SameName(t, MonthName(m.value))
    ensures m.None? ==> forall k :: 1 <= k <= 12 ==> !SameName(t, MonthName(k))
  {
    MonthFrom(t, 1)
  }

  function MonthFrom(t: string, k: int): (m: Option<int>)
    requires 1 <= k <= 13
    ensures m.Some? ==> k <= m.value <= 12 && SameName(t, MonthName(m.value))
    ensures m.Some? ==> forall j :: k <= j < m.value ==> !SameName(t, MonthName(j))
    ensures m.None? ==> forall j :: k <= j <= 12 ==> !SameName(t, MonthName(j))
    decreases 13 - k
  {
    if k == 13 then None
    else if SameName(t, MonthName(k)) then Some(k)
    else MonthFrom(t, k + 1)
  }

  /** No two month abbreviations are the same name, whatever the case. */
  lemma MonthNamesDistinct(j: int, k: int)
    requires 1 <= j < k <= 12
    ensures !SameName(MonthName(k), MonthName(j))
  {
  }

  /** The same in upper case, as `TO_CHAR` writes the month. */
  lemma UpperNamesDistinct(j: int, k: int)
    requires 1 <= j < k <= 12
    ensures !SameName(Upper(MonthName(k)), MonthName(j))
  {
  }

  lemma MonthNumberOfName(m: int)
    requires 1 <= m <= 12
    ensures MonthNumber(MonthName(m)) == Some(m)
    ensures MonthNumber(Upper(MonthName(m))) == Some(m)
  {
    var r := MonthNumber(MonthName(m));
    assert SameName(MonthName(m), MonthName(m));
    if r.value < m {
      MonthNamesDistinct(r.value, m);
    }
    UpperNumberOfName(m);
  }

  lemma UpperNumberOfName(m: int)
    requires 1 <= m <= 12
    ensures MonthNumber(Upper(MonthName(m))) == Some(m)
  {
    var u := MonthNumber(Upper(MonthName(m)));
    assert SameName(Upper(MonthName(m)), MonthName(m));
    if u.value < m {
      UpperNamesDistinct(u.value, m);
    }
  }

  function Pad2(n: nat): (s: string)
    requires n < 100
    ensures |s| == 2 && AllDigits(s) && DigitsValue(s) == n
  {
    var s := [DigitChar(n / 10), DigitChar(n % 10)];
    assert s[..1] == [DigitChar(n / 10)] && s[..1][..0] == [];
    assert DigitsValue(s[..1]) == n / 10;
    s
  }

  function Year4(y: nat): (s: string)
    ensures AllDigits(s) && DigitsValue(s) == y
    ensures y <= 9999 ==> |s| == 4
  {
    ZeroPadValue(Decimal(y), 4);
    DecimalWidth(y, 4);
    ZeroPad(Decimal(y), 4)
  }

  /** The text shape the `'DD-MON-YYYY'` format mask describes. */
  predicate DayMask(s: string) {
    && |s| == 11 && IsDigit(s[0]) && IsDigit(s[1]) && s[2] == '-'
    && MonthNumber(s[3..6]).Some? && s[6] == '-' && AllDigits(s[7..])
  }

  /** `date.strftime("%d-%b-%Y")`. */
  function FormatDay(d: Date): (s: string)
    requires Valid(d)
  {
    Pad2(d.day) + "-" + MonthName(d.month) + "-" + Year4(d.year)
  }

  /** `TO_DATE(s, 'DD-MON-YYYY')`, read strictly: two-digit day, month
      abbreviation in any case, four-digit year, and a date that exists. */
  function ParseDay(s: string): (r: Option<Date>)
    ensures r.Some? ==> Valid(r.value) && DayMask(s)
  {
    if |s| == 11 && IsDigit(s[0]) && IsDigit(s[1]) && s[2] == '-' && s[6] == '-' && AllDigits(s[7..]) then
      match MonthNumber(s[3..6])
      case None => None
      case Some(m) =>
        var d := Date(DigitsValue(s[7..]), m, DigitsValue(s[..2]));
        if Valid(d) then Some(d) else None
    else None
  }

  /** What `strftime` writes is what `TO_DATE` reads back, so the dates spliced
      into the queries select the days the user picked. */
  lemma FormatDayRoundTrip(d: Date)
    requires Valid(d) && d.year <= 9999
    ensures DayMask(FormatDay(d))
    ensures ParseDay(FormatDay(d)) == Some(d)
  {
    MonthNumberOfName(d.month);
    ParseDayOf(Pad2(d.day), MonthName(d.month), Year4(d.year), d);
  }

  /** A day, a month name and a year of the right widths, joined by dashes,
      read back as the date they spell. */
  lemma ParseDayOf(day: string, name: string, year: string, d: Date)
    requires Valid(d)
    requires |day| == 2 && AllDigits(day) && DigitsValue(day) == d.day
    requires |name| == 3 && MonthNumber(name) == Some(d.month)
    requires |year| == 4 && AllDigits(year) && DigitsValue(year) == d.year
    ensures DayMask(day + "-" + name + "-" + year)
    ensures ParseDay(day + "-" + name + "-" + year) == Some(d)
  {
    var s := day + "-" + name + "-" + year;
    assert s[..2] == day && s[3..6] == name && s[7..] == year;
    assert s[0] == day[0] && s[1] == day[1];
  }

  /** `TO_CHAR(t, 'DD-MON-YYYY HH24:MI:SS')` with English month names. */
  function ToChar(t: DateTime): (s: string)
    requires ValidTime(t)
  {
    Pad2(t.date.day) + "-" + Upper(MonthName(t.date.month)) + "-" + Year4(t.date.year)
      + " " + Pad2(t.hour) + ":" + Pad2(t.minute) + ":" + Pad2(t.second)
  }

  /** `pd.to_datetime` applied to the text `TO_CHAR` produces; any other
      shape is reported as a parse failure. */
  function ParseStamp(s: string): (r: Option<DateTime>)
    ensures r.Some? ==> ValidTime(r.value)
  {
    if |s| == 20 && s[11] == ' ' && s[14] == ':' && s[17] == ':'
      && AllDigits(s[12..14]) && AllDigits(s[15..17]) && AllDigits(s[18..20])
    then
      match ParseDay(s[..11])
      case None => None
      case Some(d) =>
        var t := DateTime(d, DigitsValue(s[12..14]), DigitsValue(s[15..17]), DigitsValue(s[18..20]));
        if ValidTime(t) then Some(t) else None
    else None
  }

  /** The timestamps the queries return parse back to the instant stored. */
  lemma ToCharRoundTrip(t: DateTime)
    requires ValidTime(t) && t.date.year <= 9999
    ensures ParseStamp(ToChar(t)) == Some(t)
  {
    var d := t.date;
    MonthNumberOfName(d.month);
    ParseDayOf(Pad2(d.day), Upper(MonthName(d.month)), Year4(d.year), d);
    ParseStampOf(Pad2(d.day) + "-" + Upper(MonthName(d.month)) + "-" + Year4(d.year),
      Pad2(t.hour), Pad2(t.minute), Pad2(t.second), t);
  }

  /** A day text followed by three two-digit fields reads back as the
      instant they spell. */
  lemma ParseStampOf(day: string, h: string, mi: string, se: string, t: DateTime)
    requires ValidTime(t) && |day| == 11 && ParseDay(day) == Some(t.date)
    requires |h| == 2 && AllDigits(h) && DigitsValue(h) == t.hour
    requires |mi| == 2 && AllDigits(mi) && DigitsValue(mi) == t.minute
    requires |se| == 2 && AllDigits(se) && DigitsValue(se) == t.second
    ensures ParseStamp(day + " " + h + ":" + mi + ":" + se) == Some(t)
  {
    var s := day + " " + h + ":" + mi + ":" + se;
    StampFields(day, h, mi, se, s);
  }

  /** Where the fields of a timestamp text sit. */
  lemma StampFields(day: string, h: string, mi: string, se: string, s: string)
    requires |day| == 11 && |h| == 2 && |mi| == 2 && |se| == 2
    requires s == day + " " + h + ":" + mi + ":" + se
    ensures |s| == 20 && s[11] == ' ' && s[14] == ':' && s[17] == ':'
    ensures s[..11] == day && s[12..14] == h && s[15..17] == mi && s[18..20] == se
  {
    var tail := " " + h + ":" + mi + ":" + se;
    assert s == day + tail;
    assert tail[1..3] == h && tail[4..6] == mi && tail[7..9] == se;
    assert s[12..14] == tail[1..3] && s[15..17] == tail[4..6] && s[18..20] == tail[7..9];
  }
}
