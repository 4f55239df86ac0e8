/** The trend counts of the home page: `resample(rule, on=column).size()`
    over the timestamps of one override frame, with the rule picked by the
    granularity selector. A period is a run of whole days ending at the date
    that labels it: the day itself (`'D'`), the Sunday that closes its week
    (`'W'`, weeks running Monday to Sunday) or the last day of its month
    (`'M'`). The series runs from the period of the earliest timestamp to
    the period of the latest, one entry per period, empty periods included. */
module Buckets {
  import opened Text
  import opened Calendar

  datatype Freq = Day | Week | Month

  /** `if granularity == "Daily" … elif granularity == "Weekly" … else`:
      every other choice falls through to monthly periods. */
  function FreqOf(granularity: string): Freq {
    if granularity == "Daily" then Day
    else if granularity == "Weekly" then Week
    else Month
  }

  /** The date labelling the period `d` falls in. */
  function Anchor(f: Freq, d: Date): (a: Date)
    requires Valid(d)
    ensures Valid(a) && Ordinal(d) <= Ordinal(a)
  {
    match f
    case Day => d
    case Week => SundayFrom(d)
    case Month => Date(d.year, d.month, DaysInMonth(d.year, d.month))
  }

  /** The Sunday on or after `d`. */
  function SundayFrom(d: Date): (a: Date)
    requires Valid(d)
    ensures Valid(a) && Weekday(a) == 6
    ensures Ordinal(a) == Ordinal(d) + (6 - Weekday(d))
    decreases 6 - Weekday(d)
  {
    if Weekday(d) == 6 then d
    else
      WeekdayNext(d);
      SundayFrom(NextDay(d))
  }

  predicate IsAnchor(f: Freq, a: Date)
    requires Valid(a)
  {
    Anchor(f, a) == a
  }

  /** The label of the period after the one `a` closes. */
  function NextAnchor(f: Freq, a: Date): (b: Date)
    requires Valid(a)
    ensures Valid(b) && Ordinal(a) < Ordinal(b)
  {
    Anchor(f, NextDay(a))
  }

  /** The labels of the periods from the one `a` closes up to `hi`. */
  function Periods(f: Freq, a: Date, hi: Date): (ps: seq<Date>)
    requires Valid(a) && Valid(hi)
    ensures forall i :: 0 <= i < |ps| ==> Valid(ps[i]) && Ordinal(a) <= Ordinal(ps[i]) <= Ordinal(hi)
    decreases Ordinal(hi) - Ordinal(a)
  {
    if Ordinal(hi) < Ordinal(a) then [] else [a] + Periods(f, NextAnchor(f, a), hi)
  }

  /** The dates of the records that carry a timestamp; `resample` leaves
      out the missing ones. */
  function Stamped(records: seq<Option<DateTime>>): (ds: seq<Date>)
    ensures |ds| <= |records|
  {
    if records == [] then []
    else
      var rest := Stamped(records[..|records| - 1]);
      match records[|records| - 1]
      case Some(t) => rest + [t.date]
      case None => rest
  }

  predicate AllValid(ds: seq<Date>) {
    forall i :: 0 <= i < |ds| ==> Valid(ds[i])
  }

  predicate StampsValid(records: seq<Option<DateTime>>) {
    forall i :: 0 <= i < |records| && records[i].Some? ==> ValidTime(records[i].value)
  }

  /** The number of dates in the period `a` closes. */
  function CountIn(f: Freq, ds: seq<Date>, a: Date): nat
    requires AllValid(ds)
  {
    if ds == [] then 0
    else CountIn(f, ds[..|ds| - 1], a) + (if Anchor(f, ds[|ds| - 1]) == a then 1 else 0)
  }

  function Earliest(ds: seq<Date>): (d: Date)
    requires ds != [] && AllValid(ds)
    ensures d in ds && forall i :: 0 <= i < |ds| ==> Ordinal(d) <= Ordinal(ds[i])
  {
    if |ds| == 1 then ds[0]
    else
      var e := Earliest(ds[..|ds| - 1]);
      if Ordinal(ds[|ds| - 1]) < Ordinal(e) then ds[|ds| - 1] else e
  }

  function Latest(ds: seq<Date>): (d: Date)
    requires ds != [] && AllValid(ds)
    ensures d in ds && forall i :: 0 <= i < |ds| ==> Ordinal(ds[i]) <= Ordinal(d)
  {
    if |ds| == 1 then ds[0]
    else
      var e := Latest(ds[..|ds| - 1]);
      if Ordinal(e) < Ordinal(ds[|ds| - 1]) then ds[|ds| - 1] else e
  }

  /** One entry of the resampled series: a period label and its size. */
  datatype Bin = Bin(period: Date, count: nat)

  function Bins(f: Freq, ps: seq<Date>, ds: seq<Date>): (bins: seq<Bin>)
    requires AllValid(ds)
    ensures |bins| == |ps|
    ensures forall i :: 0 <= i < |ps| ==> bins[i] == Bin(ps[i], CountIn(f, ds, ps[i]))
  {
    if ps == [] then [] else Bins(f, ps[..|ps| - 1], ds) + [Bin(ps[|ps| - 1], CountIn(f, ds, ps[|ps| - 1]))]
  }

  /** `df.resample(rule, on=column).size()`. */
  function Resample(f: Freq, records: seq<Option<DateTime>>): seq<Bin>
    requires StampsValid(records)
  {
    StampedValid(records);
    var ds := Stamped(records);
    if ds == [] then []
    else Bins(f, Periods(f, Anchor(f, Earliest(ds)), Anchor(f, Latest(ds))), ds)
  }

  /** The series the home page plots for one frame. */
  function Trend(granularity: string, records: seq<Option<DateTime>>): seq<Bin>
    requires StampsValid(records)
  {
    Resample(FreqOf(granularity), records)
  }

  function Total(bins: seq<Bin>): nat {
    if bins == [] then 0 else Total(bins[..|bins| - 1]) + bins[|bins| - 1].count
  }

  // ----- Periods -----

  /** `"Daily"` picks days and `"Weekly"` weeks; anything else, the
      unexpected included, picks months and raises nothing. */
  lemma TrendRule(granularity: string, records: seq<Option<DateTime>>)
    requires StampsValid(records)
    ensures granularity == "Daily" ==> Trend(granularity, records) == Resample(Day, records)
    ensures granularity == "Weekly" ==> Trend(granularity, records) == Resample(Week, records)
    ensures granularity != "Daily" && granularity != "Weekly" ==> Trend(granularity, records) == Resample(Month, records)
  {
  }

  /** A day labels itself; a week is labelled by the Sunday on or after the
      date, at most six days later; a month by its last day. */
  lemma AnchorShape(f: Freq, d: Date)
    requires Valid(d)
    ensures f == Day ==> Anchor(f, d) == d
    ensures f == Week ==> Weekday(Anchor(f, d)) == 6 && Ordinal(Anchor(f, d)) <= Ordinal(d) + 6
    ensures f == Month ==> Anchor(f, d) == Date(d.year, d.month, DaysInMonth(d.year, d.month))
  {
  }

  /** Every day from `d` up to the label of its period is in that same
      period: a period is a run of consecutive days ending at its label. */
  lemma SamePeriod(f: Freq, d: Date, e: Date)
    requires Valid(d) && Valid(e)
    requires Ordinal(d) <= Ordinal(e) <= Ordinal(Anchor(f, d))
    ensures Anchor(f, e) == Anchor(f, d)
  {
    match f
    case Day =>
      OrdinalInjective(d, e);
    case Week =>
      SameWeek(d, e);
    case Month =>
      SameMonth(d, e);
  }

  /** The days from `d` to the Sunday after it share that Sunday. */
  lemma {:induction false} SameWeek(d: Date, e: Date)
    requires Valid(d) && Valid(e)
    requires Ordinal(d) <= Ordinal(e) <= Ordinal(SundayFrom(d))
    ensures SundayFrom(e) == SundayFrom(d)
    decreases Ordinal(e) - Ordinal(d)
  {
    if Ordinal(e) == Ordinal(d) {
      OrdinalInjective(d, e);
    } else {
      assert Weekday(d) != 6;
      SameWeek(NextDay(d), e);
    }
  }

  /** The days from `d` to the end of its month are the dates of that month
      from `d` on. */
  lemma SameMonth(d: Date, e: Date)
    requires Valid(d) && Valid(e)
    requires Ordinal(d) <= Ordinal(e) <= Ordinal(Anchor(Month, d))
    ensures e.year == d.year && e.month == d.month
  {
    var x := Date(d.year, d.month, d.day + (Ordinal(e) - Ordinal(d)));
    assert Valid(x) && Ordinal(x) == Ordinal(e);
    OrdinalInjective(x, e);
  }

  /** A period label labels its own period. */
  lemma AnchorIsAnchor(f: Freq, d: Date)
    requires Valid(d)
    ensures IsAnchor(f, Anchor(f, d))
  {
    SamePeriod(f, d, Anchor(f, d));
  }

  /** Later dates fall in the same or a later period. */
  lemma AnchorMonotone(f: Freq, d: Date, e: Date)
    requires Valid(d) && Valid(e) && Ordinal(d) <= Ordinal(e)
    ensures Ordinal(Anchor(f, d)) <= Ordinal(Anchor(f, e))
  {
    if Ordinal(e) <= Ordinal(Anchor(f, d)) {
      SamePeriod(f, d, e);
    }
  }

  // ----- The series of periods -----

  /** The series starts at the first label, ends at the last, holds only
      labels, and each entry is followed by the label of the very next
      period, so no period in between is skipped. */
  lemma {:induction false} PeriodsShape(f: Freq, a: Date, hi: Date)
    requires Valid(a) && Valid(hi) && IsAnchor(f, a)
    ensures forall i :: 0 <= i < |Periods(f, a, hi)| ==> IsAnchor(f, Periods(f, a, hi)[i])
    ensures forall i :: 0 <= i < |Periods(f, a, hi)| - 1 ==>
      Periods(f, a, hi)[i + 1] == NextAnchor(f, Periods(f, a, hi)[i])
    ensures Ordinal(a) <= Ordinal(hi) ==> Periods(f, a, hi) != [] && Periods(f, a, hi)[0] == a
    ensures Ordinal(a) <= Ordinal(hi) && IsAnchor(f, hi) ==> Periods(f, a, hi)[|Periods(f, a, hi)| - 1] == hi
    decreases Ordinal(hi) - Ordinal(a)
  {
    if Ordinal(a) <= Ordinal(hi) {
      var b := NextAnchor(f, a);
      AnchorIsAnchor(f, NextDay(a));
      PeriodsShape(f, b, hi);
      var ps := Periods(f, a, hi);
      assert ps == [a] + Periods(f, b, hi);
      if IsAnchor(f, hi) && Ordinal(hi) < Ordinal(b) {
        if Ordinal(a) < Ordinal(hi) {
          AnchorMonotone(f, NextDay(a), hi);
        }
        OrdinalInjective(a, hi);
      }
    }
  }

  /** Labels in the series only grow, so none repeats. */
  lemma {:induction false} PeriodsIncrease(f: Freq, a: Date, hi: Date)
    requires Valid(a) && Valid(hi)
    ensures forall i, j :: 0 <= i < j < |Periods(f, a, hi)| ==>
      Ordinal(Periods(f, a, hi)[i]) < Ordinal(Periods(f, a, hi)[j])
    decreases Ordinal(hi) - Ordinal(a)
  {
    if Ordinal(a) <= Ordinal(hi) {
      var b := NextAnchor(f, a);
      PeriodsIncrease(f, b, hi);
      var ps := Periods(f, a, hi);
      assert ps == [a] + Periods(f, b, hi);
      forall i, j | 0 <= i < j < |ps|
        ensures Ordinal(ps[i]) < Ordinal(ps[j])
      {
        assert ps[j] == Periods(f, b, hi)[j - 1];
        if i > 0 {
          assert ps[i] == Periods(f, b, hi)[i - 1];
        }
      }
    }
  }

  /** Every date whose period lies between the first label and `hi` has
      its period in the series. */
  lemma {:induction false} PeriodsCover(f: Freq, a: Date, hi: Date, e: Date)
    requires Valid(a) && Valid(hi) && Valid(e) && IsAnchor(f, a)
    requires Ordinal(a) <= Ordinal(Anchor(f, e)) <= Ordinal(hi)
    ensures Anchor(f, e) in Periods(f, a, hi)
    decreases Ordinal(hi) - Ordinal(a)
  {
    var ps := Periods(f, a, hi);
    assert ps == [a] + Periods(f, NextAnchor(f, a), hi);
    if Anchor(f, e) != a {
      if Ordinal(e) <= Ordinal(a) {
        // `a` would be in the period of `e`, so it would label it.
        SamePeriod(f, e, a);
      }
      AnchorMonotone(f, NextDay(a), e);
      AnchorIsAnchor(f, NextDay(a));
      PeriodsCover(f, NextAnchor(f, a), hi, e);
    }
  }

  // ----- Counting -----

  lemma {:induction false} StampedValid(records: seq<Option<DateTime>>)
    requires StampsValid(records)
    ensures AllValid(Stamped(records))
  {
    if records != [] {
      StampedValid(records[..|records| - 1]);
    }
  }

  /** The number of times `a` occurs in `ps`. */
  function Occurrences(ps: seq<Date>, a: Date): nat {
    if ps == [] then 0 else Occurrences(ps[..|ps| - 1], a) + (if ps[|ps| - 1] == a then 1 else 0)
  }

  /** Adding one date adds one to the count of each entry labelled with its
      period, and nothing elsewhere. */
  lemma {:induction false} TotalAdd(f: Freq, ps: seq<Date>, ds: seq<Date>, d: Date)
    requires AllValid(ds) && Valid(d)
    ensures AllValid(ds + [d])
    ensures Total(Bins(f, ps, ds + [d])) == Total(Bins(f, ps, ds)) + Occurrences(ps, Anchor(f, d))
    decreases |ps|
  {
    var ds' := ds + [d];
    assert AllValid(ds') by {
      forall i | 0 <= i < |ds'| ensures Valid(ds'[i]) {
        if i < |ds| { assert ds'[i] == ds[i]; }
      }
    }
    if ps != [] {
      var init := ps[..|ps| - 1];
      TotalAdd(f, init, ds, d);
      assert ds'[..|ds'| - 1] == ds;
      assert Bins(f, ps, ds')[..|ps| - 1] == Bins(f, init, ds');
      assert Bins(f, ps, ds)[..|ps| - 1] == Bins(f, init, ds);
    }
  }

  /** A label that occurs in a strictly increasing series occurs once. */
  lemma {:induction false} OccursOnce(ps: seq<Date>, a: Date)
    requires AllValid(ps) && a in ps
    requires forall i, j :: 0 <= i < j < |ps| ==> Ordinal(ps[i]) < Ordinal(ps[j])
    ensures Occurrences(ps, a) == 1
    decreases |ps|
  {
    var init := ps[..|ps| - 1];
    if ps[|ps| - 1] == a {
      forall i | 0 <= i < |init| ensures init[i] != a {
        assert init[i] == ps[i];
      }
      Absent(init, a);
    } else {
      assert a in init;
      OccursOnce(init, a);
    }
  }

  lemma {:induction false} Absent(ps: seq<Date>, a: Date)
    requires a !in ps
    ensures Occurrences(ps, a) == 0
    decreases |ps|
  {
    if ps != [] {
      Absent(ps[..|ps| - 1], a);
    }
  }

  /** The sizes of a series that holds the period of every date once add up
      to the number of dates. */
  lemma {:induction false} TotalIsCount(f: Freq, ps: seq<Date>, ds: seq<Date>)
    requires AllValid(ps) && AllValid(ds)
    requires forall i, j :: 0 <= i < j < |ps| ==> Ordinal(ps[i]) < Ordinal(ps[j])
    requires forall i :: 0 <= i < |ds| ==> Anchor(f, ds[i]) in ps
    ensures Total(Bins(f, ps, ds)) == |ds|
    decreases |ds|
  {
    if ds == [] {
      ZeroCounts(f, ps, ds);
    } else {
      var init := ds[..|ds| - 1];
      var d := ds[|ds| - 1];
      TotalIsCount(f, ps, init);
      Snoc(ds);
      TotalAdd(f, ps, init, d);
      OccursOnce(ps, Anchor(f, d));
    }
  }

  lemma {:induction false} ZeroCounts(f: Freq, ps: seq<Date>, ds: seq<Date>)
    requires ds == []
    ensures Total(Bins(f, ps, ds)) == 0
    decreases |ps|
  {
    if ps != [] {
      ZeroCounts(f, ps[..|ps| - 1], ds);
      assert Bins(f, ps, ds)[..|ps| - 1] == Bins(f, ps[..|ps| - 1], ds);
    }
  }

  /** A period some date falls in is counted at least once. */
  lemma {:induction false} CountSeen(f: Freq, ds: seq<Date>, i: nat)
    requires AllValid(ds) && i < |ds|
    ensures CountIn(f, ds, Anchor(f, ds[i])) >= 1
    decreases |ds|
  {
    if i < |ds| - 1 {
      CountSeen(f, ds[..|ds| - 1], i);
    }
  }

  // ----- What the resampled series promises -----

  /** The series is empty exactly when no record has a timestamp;
      otherwise its entries are period labels in increasing order, each
      followed by the label of the very next period, so that empty periods
      in between appear with size 0, and each size is the number of stamped
      records in that period. */
  lemma ResampleShape(f: Freq, records: seq<Option<DateTime>>)
    requires StampsValid(records)
    ensures var ds := Stamped(records); var bins := Resample(f, records);
      && AllValid(ds)
      && (bins == [] <==> ds == [])
      && (forall i :: 0 <= i < |bins| ==> Valid(bins[i].period) && IsAnchor(f, bins[i].period))
      && (forall i :: 0 <= i < |bins| ==> bins[i].count == CountIn(f, ds, bins[i].period))
      && (forall i :: 0 <= i < |bins| - 1 ==> bins[i + 1].period == NextAnchor(f, bins[i].period))
      && (forall i, j :: 0 <= i < j < |bins| ==> Ordinal(bins[i].period) < Ordinal(bins[j].period))
  {
    StampedValid(records);
    var ds := Stamped(records);
    if ds != [] {
      var first, last := Earliest(ds), Latest(ds);
      var lo, hi := Anchor(f, first), Anchor(f, last);
      AnchorMonotone(f, first, last);
      AnchorIsAnchor(f, first);
      PeriodsShape(f, lo, hi);
      PeriodsIncrease(f, lo, hi);
      BinsShape(f, Periods(f, lo, hi), ds, Resample(f, records));
    }
  }

  /** What a series of period labels passes on to its sized entries. */
  lemma BinsShape(f: Freq, ps: seq<Date>, ds: seq<Date>, bins: seq<Bin>)
    requires AllValid(ds) && bins == Bins(f, ps, ds) && ps != []
    requires forall i :: 0 <= i < |ps| ==> Valid(ps[i]) && IsAnchor(f, ps[i])
    requires forall i :: 0 <= i < |ps| - 1 ==> ps[i + 1] == NextAnchor(f, ps[i])
    requires forall i, j :: 0 <= i < j < |ps| ==> Ordinal(ps[i]) < Ordinal(ps[j])
    ensures bins != []
    ensures forall i :: 0 <= i < |bins| ==> Valid(bins[i].period) && IsAnchor(f, bins[i].period)
    ensures forall i :: 0 <= i < |bins| ==> bins[i].count == CountIn(f, ds, bins[i].period)
    ensures forall i :: 0 <= i < |bins| - 1 ==> bins[i + 1].period == NextAnchor(f, bins[i].period)
    ensures forall i, j :: 0 <= i < j < |bins| ==> Ordinal(bins[i].period) < Ordinal(bins[j].period)
  {
  }

  /** Every stamped record's period is in the series, and the sizes add up
      to the number of stamped records, so each record is counted in exactly
      one entry. */
  lemma ResampleTotal(f: Freq, records: seq<Option<DateTime>>)
    requires StampsValid(records)
    ensures var ds := Stamped(records); var bins := Resample(f, records);
      && AllValid(ds)
      && (forall i :: 0 <= i < |ds| ==> exists j :: 0 <= j < |bins| && bins[j].period == Anchor(f, ds[i]))
      && Total(bins) == |ds|
  {
    StampedValid(records);
    var ds := Stamped(records);
    if ds != [] {
      var lo, hi := Anchor(f, Earliest(ds)), Anchor(f, Latest(ds));
      var ps := Periods(f, lo, hi);
      PeriodsIncrease(f, lo, hi);
      AllCovered(f, ds);
      AllValidPeriods(f, lo, hi);
      BinsTotal(f, ps, ds, Resample(f, records));
    } else {
      assert Resample(f, records) == [];
    }
  }

  /** The series starts at the period of the earliest record and ends at
      the period of the latest, and neither end is empty. */
  lemma ResampleEnds(f: Freq, records: seq<Option<DateTime>>)
    requires StampsValid(records)
    ensures var ds := Stamped(records); var bins := Resample(f, records);
      && AllValid(ds)
      && (bins != [] ==>
        && bins[0].period == Anchor(f, Earliest(ds)) && bins[0].count >= 1
        && bins[|bins| - 1].period == Anchor(f, Latest(ds)) && bins[|bins| - 1].count >= 1)
  {
    StampedValid(records);
    var ds := Stamped(records);
    if ds != [] {
      var first, last := Earliest(ds), Latest(ds);
      AnchorMonotone(f, first, last);
      AnchorIsAnchor(f, first);
      AnchorIsAnchor(f, last);
      PeriodsShape(f, Anchor(f, first), Anchor(f, last));
      var a :| 0 <= a < |ds| && ds[a] == first;
      var b :| 0 <= b < |ds| && ds[b] == last;
      CountSeen(f, ds, a);
      CountSeen(f, ds, b);
    }
  }

  /** A strictly increasing series holding every date's period sizes each
      date once. */
  lemma BinsTotal(f: Freq, ps: seq<Date>, ds: seq<Date>, bins: seq<Bin>)
    requires AllValid(ps) && AllValid(ds) && bins == Bins(f, ps, ds)
    requires forall i, j :: 0 <= i < j < |ps| ==> Ordinal(ps[i]) < Ordinal(ps[j])
    requires forall i :: 0 <= i < |ds| ==> Anchor(f, ds[i]) in ps
    ensures forall i :: 0 <= i < |ds| ==> exists j :: 0 <= j < |bins| && bins[j].period == Anchor(f, ds[i])
    ensures Total(bins) == |ds|
  {
    TotalIsCount(f, ps, ds);
    forall i | 0 <= i < |ds|
      ensures exists j :: 0 <= j < |bins| && bins[j].period == Anchor(f, ds[i])
    {
      var j :| 0 <= j < |ps| && ps[j] == Anchor(f, ds[i]);
      assert bins[j].period == ps[j];
    }
  }

  /** The period of every date lies in the series from the earliest date's
      period to the latest's. */
  lemma AllCovered(f: Freq, ds: seq<Date>)
    requires ds != [] && AllValid(ds)
    ensures forall i :: 0 <= i < |ds| ==> Anchor(f, ds[i]) in Periods(f, Anchor(f, Earliest(ds)), Anchor(f, Latest(ds)))
  {
    var first, last := Earliest(ds), Latest(ds);
    var lo, hi := Anchor(f, first), Anchor(f, last);
    AnchorIsAnchor(f, first);
    forall i | 0 <= i < |ds|
      ensures Anchor(f, ds[i]) in Periods(f, lo, hi)
    {
      AnchorMonotone(f, first, ds[i]);
      AnchorMonotone(f, ds[i], last);
      PeriodsCover(f, lo, hi, ds[i]);
    }
  }

  lemma AllValidPeriods(f: Freq, a: Date, hi: Date)
    requires Valid(a) && Valid(hi)
    ensures AllValid(Periods(f, a, hi))
  {
  }
}
