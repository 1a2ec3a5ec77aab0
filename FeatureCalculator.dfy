/**
 * The VMC (vector magnitude counts) series of an acceleration record, built
 * minute by minute, and the calendar and limit-string helpers around it.
 *
 * The database is replaced by the participant's whole magnitude record
 * `rec` (the `r` series `get_r` would compute for every sample); a query for
 * the open interval (lo, hi) returns the samples strictly inside it.
 */
module FeatureCalculator {
  import opened TimeSeries
  import opened Calendar

  datatype Option<T> = None | Some(value: T)

  // ---------------------------------------------------------------- get_VMC

  /** The one-entry dict `{key: value}` that `get_VMC` returns; `None` marks an empty bucket. */
  datatype VmcEntry = VmcEntry(key: real, value: Option<real>)

  function Abs(x: real): real {
    if x < 0.0 then -x else x
  }

  /** `(xs - m).abs()`, term by term. */
  function AbsDeviations(xs: seq<real>, m: real): (ds: seq<real>)
    ensures |ds| == |xs|
  {
    if xs == [] then [] else AbsDeviations(xs[..|xs| - 1], m) + [Abs(xs[|xs| - 1] - m)]
  }

  lemma {:induction false} AbsDeviationsAt(xs: seq<real>, m: real)
    ensures forall i :: 0 <= i < |xs| ==> AbsDeviations(xs, m)[i] == Abs(xs[i] - m)
  {
    if xs != [] {
      AbsDeviationsAt(xs[..|xs| - 1], m);
    }
  }

  /** `(r - r.mean()).abs().mean()`: the mean absolute deviation. */
  function MeanAbsDeviation(xs: seq<real>): real
    requires |xs| > 0
  {
    Mean(AbsDeviations(xs, Mean(xs)))
  }

  /**
   * `get_VMC(r, first_timestamp)`: an empty bucket gives `first_timestamp`
   * with no value; otherwise the key is the mean sample timestamp and the
   * value the mean absolute deviation of the sample values.
   */
  function Vmc(bucket: Series, firstTimestamp: int): (e: VmcEntry)
    ensures e.value.None? <==> bucket == []
    ensures bucket == [] ==> e.key == firstTimestamp as real
  {
    if bucket == [] then VmcEntry(firstTimestamp as real, None)
    else VmcEntry(Mean(Times(bucket)), Some(MeanAbsDeviation(Values(bucket))))
  }

  /** A VMC value is never negative. */
  lemma VmcNonNegative(bucket: Series, firstTimestamp: int)
    requires bucket != []
    ensures Vmc(bucket, firstTimestamp).value.value >= 0.0
  {
    var xs := Values(bucket);
    var ds := AbsDeviations(xs, Mean(xs));
    AbsDeviationsAt(xs, Mean(xs));
    SumNonNegative(ds);
    assert Mean(ds) * (|ds| as real) == Sum(ds);
  }

  /** Equal terms have no deviation from their mean. */
  lemma MadOfConstant(xs: seq<real>)
    requires |xs| > 0
    requires forall i :: 0 <= i < |xs| ==> xs[i] == xs[0]
    ensures MeanAbsDeviation(xs) == 0.0
  {
    var ds := AbsDeviations(xs, Mean(xs));
    MeanOfConstant(xs, xs[0]);
    AbsDeviationsAt(xs, Mean(xs));
    MeanOfConstant(ds, 0.0);
  }

  /** A zero mean absolute deviation leaves every term equal to the mean. */
  lemma ConstantOfZeroMad(xs: seq<real>)
    requires |xs| > 0
    requires MeanAbsDeviation(xs) == 0.0
    ensures forall i :: 0 <= i < |xs| ==> xs[i] == xs[0]
  {
    var m := Mean(xs);
    var ds := AbsDeviations(xs, m);
    AbsDeviationsAt(xs, m);
    SumZero(ds);
    assert Mean(ds) * (|ds| as real) == Sum(ds);
    assert forall i :: 0 <= i < |xs| ==> xs[i] == m;
  }

  /** A VMC value is zero exactly when every sample of the bucket has the same value. */
  lemma VmcZeroIffConstant(bucket: Series, firstTimestamp: int)
    requires bucket != []
    ensures Vmc(bucket, firstTimestamp).value == Some(0.0) <==>
      forall i :: 0 <= i < |bucket| ==> bucket[i].v == bucket[0].v
  {
    var xs := Values(bucket);
    ValuesAt(bucket);
    if forall i :: 0 <= i < |bucket| ==> bucket[i].v == bucket[0].v {
      MadOfConstant(xs);
    }
    if MeanAbsDeviation(xs) == 0.0 {
      ConstantOfZeroMad(xs);
    }
  }

  /** The key of a non-empty bucket lies between its first and its last sample timestamp. */
  lemma VmcKeyWithin(bucket: Series, firstTimestamp: int)
    requires Increasing(bucket) && bucket != []
    ensures First(bucket) as real <= Vmc(bucket, firstTimestamp).key <= Last(bucket) as real
  {
    TimesAt(bucket);
    forall i | 0 <= i < |bucket|
      ensures First(bucket) as real <= Times(bucket)[i] <= Last(bucket) as real
    {
      WithinSpan(bucket, bucket[i]);
    }
    MeanBounds(Times(bucket), First(bucket) as real, Last(bucket) as real);
  }

  /** The entry of the minute bucket [lo, hi] of an increasing series is keyed inside [lo, hi]. */
  lemma VmcKeyInBucket(r: Series, lo: int, hi: int)
    requires Increasing(r) && lo <= hi
    ensures lo as real <= Vmc(Slice(r, lo, hi), lo).key <= hi as real
  {
    var bucket := Slice(r, lo, hi);
    if bucket != [] {
      SliceIncreasing(r, lo, hi);
      SliceWithin(r, lo, hi);
      VmcKeyWithin(bucket, lo);
    }
  }

  // ------------------------------------------------------- the vmc_serie dict

  /** `vmc_serie`: VMC values by key; `None` stands for the NaN an empty bucket becomes. */
  type VmcSerie = map<real, Option<real>>

  /** `vmc_serie.update(vmc)` for every entry of `es` in turn. */
  function Collect(acc: VmcSerie, es: seq<VmcEntry>): VmcSerie {
    if es == [] then acc
    else Collect(acc, es[..|es| - 1])[es[|es| - 1].key := es[|es| - 1].value]
  }

  /** Updating with two lists in turn is updating with their concatenation. */
  lemma {:induction false} CollectAppend(acc: VmcSerie, a: seq<VmcEntry>, b: seq<VmcEntry>)
    ensures Collect(acc, a + b) == Collect(Collect(acc, a), b)
  {
    if b == [] {
      assert a + b == a;
    } else {
      assert (a + b)[..|a + b| - 1] == a + b[..|b| - 1];
      CollectAppend(acc, a, b[..|b| - 1]);
    }
  }

  /** The keys of a list of entries. */
  function EntryKeys(es: seq<VmcEntry>): set<real> {
    set e | e in es :: e.key
  }

  /** The dict only grows: its keys are the old keys and the keys of the entries. */
  lemma {:induction false} CollectKeys(acc: VmcSerie, es: seq<VmcEntry>)
    ensures Collect(acc, es).Keys == acc.Keys + EntryKeys(es)
  {
    if es != [] {
      var init := es[..|es| - 1];
      CollectKeys(acc, init);
      assert es == init + [es[|es| - 1]];
      assert EntryKeys(es) == EntryKeys(init) + {es[|es| - 1].key};
    }
  }

  /** An entry that no later entry shares a key with keeps its value: the last update of a key wins. */
  lemma {:induction false} CollectLastWins(acc: VmcSerie, es: seq<VmcEntry>, i: nat)
    requires i < |es|
    requires forall j :: i < j < |es| ==> es[j].key != es[i].key
    ensures es[i].key in Collect(acc, es) && Collect(acc, es)[es[i].key] == es[i].value
  {
    if i < |es| - 1 {
      var init := es[..|es| - 1];
      assert init[i] == es[i];
      CollectLastWins(acc, init, i);
    }
  }

  /** A key no entry carries keeps its old value, or stays absent. */
  lemma {:induction false} CollectUntouched(acc: VmcSerie, es: seq<VmcEntry>, k: real)
    requires forall i :: 0 <= i < |es| ==> es[i].key != k
    ensures k in Collect(acc, es) <==> k in acc
    ensures k in acc ==> Collect(acc, es)[k] == acc[k]
  {
    if es != [] {
      CollectUntouched(acc, es[..|es| - 1], k);
    }
  }

  // ------------------------------------------------------------ minute loop

  /** The entries of the minute buckets `cs` of the series `r`, in loop order. */
  function BucketEntries(r: Series, cs: seq<Interval>): (es: seq<VmcEntry>)
    ensures |es| == |cs|
  {
    if cs == [] then []
    else
      var c := cs[|cs| - 1];
      BucketEntries(r, cs[..|cs| - 1]) + [Vmc(Slice(r, c.lo, c.hi), c.lo)]
  }

  lemma BucketEntriesSnoc(r: Series, cs: seq<Interval>, c: Interval)
    ensures BucketEntries(r, cs + [c]) == BucketEntries(r, cs) + [Vmc(Slice(r, c.lo, c.hi), c.lo)]
  {
    assert (cs + [c])[..|cs|] == cs;
  }

  lemma {:induction false} BucketEntriesAt(r: Series, cs: seq<Interval>, i: nat)
    requires i < |cs|
    ensures BucketEntries(r, cs)[i] == Vmc(Slice(r, cs[i].lo, cs[i].hi), cs[i].lo)
  {
    if i < |cs| - 1 {
      BucketEntriesAt(r, cs[..|cs| - 1], i);
    }
  }

  /** The minute buckets from `start` to the last sample of `r`: whole clock minutes, clipped. */
  function MinuteBuckets(r: Series, start: int): seq<Interval>
    requires |r| > 0
  {
    Cuts(ToMinute, start, Last(r))
  }

  /** The entries the minute loop adds, started at `start` over the series `r`. */
  function MinuteEntries(r: Series, start: int): seq<VmcEntry>
    requires |r| > 0
  {
    BucketEntries(r, MinuteBuckets(r, start))
  }

  /**
   * The minute buckets start at `start`, each ending at the next whole
   * minute or at the last sample, each after the previous one, the last
   * ending at the last sample; there are none when `start` is not before the
   * last sample.
   */
  lemma MinutePlan(r: Series, start: int)
    requires |r| > 0
    ensures MinuteBuckets(r, start) == [] <==> Last(r) <= start
    ensures var cs := MinuteBuckets(r, start);
      && (cs != [] ==> cs[0].lo == start && cs[|cs| - 1].hi == Last(r))
      && (forall i :: 0 <= i < |cs| ==>
            cs[i].lo < cs[i].hi && cs[i].hi == Min(FloorTo(cs[i].lo + MINUTE, MINUTE), Last(r)))
      && (forall i :: 0 <= i < |cs| - 1 ==> cs[i].hi == cs[i + 1].lo)
  {
    var cs := MinuteBuckets(r, start);
    CutsShape(ToMinute, start, Last(r));
    forall i | 0 <= i < |cs|
      ensures cs[i].hi == Min(FloorTo(cs[i].lo + MINUTE, MINUTE), Last(r))
    {
      assert Next(ToMinute, cs[i].lo) == FloorTo(cs[i].lo + MINUTE, MINUTE);
    }
  }

  /** One minute bucket added to the dict. */
  lemma MinuteStep(r: Series, acc: VmcSerie, done: seq<Interval>, c: Interval)
    ensures Collect(acc, BucketEntries(r, done + [c])) ==
      Collect(acc, BucketEntries(r, done))[Vmc(Slice(r, c.lo, c.hi), c.lo).key := Vmc(Slice(r, c.lo, c.hi), c.lo).value]
  {
    BucketEntriesSnoc(r, done, c);
    var es := BucketEntries(r, done + [c]);
    assert es[..|es| - 1] == BucketEntries(r, done);
  }

  /** One iteration of the minute loop: the bucket [minute, nextMinute] is done and its VMC stored. */
  lemma MinuteLoopNext(r: Series, acc: VmcSerie, m: VmcSerie, cs: seq<Interval>, done: seq<Interval>,
                       minute: int, nextMinute: int, last: int)
    requires minute < last && nextMinute == Min(Next(ToMinute, minute), last)
    requires done + Cuts(ToMinute, minute, last) == cs
    requires m == Collect(acc, BucketEntries(r, done))
    ensures (done + [Interval(minute, nextMinute)]) + Cuts(ToMinute, nextMinute, last) == cs
    ensures Collect(acc, BucketEntries(r, done + [Interval(minute, nextMinute)])) ==
      m[Vmc(Slice(r, minute, nextMinute), minute).key := Vmc(Slice(r, minute, nextMinute), minute).value]
  {
    var c := Interval(minute, nextMinute);
    CutsStep(ToMinute, minute, last);
    assert Cuts(ToMinute, minute, last) == [c] + Cuts(ToMinute, nextMinute, last);
    assert (done + [c]) + Cuts(ToMinute, nextMinute, last) == done + ([c] + Cuts(ToMinute, nextMinute, last));
    MinuteStep(r, acc, done, c);
  }

  /**
   * The minute loop of `get_VMC_serie` and `get_VMC_serie_by_date_range`:
   * walk `minute` from `start` to the last sample of `r`, updating the dict
   * with the VMC of every inclusive slice `r[minute:next_minute]`.
   */
  method CollectMinutes(r: Series, start: int, acc: VmcSerie) returns (m: VmcSerie)
    requires |r| > 0
    ensures m == Collect(acc, MinuteEntries(r, start))
  {
    var last := r[|r| - 1].t;
    ghost var cs := Cuts(ToMinute, start, last);
    ghost var done: seq<Interval> := [];
    m := acc;
    var minute := start;
    while minute < last
      invariant done + Cuts(ToMinute, minute, last) == cs
      invariant m == Collect(acc, BucketEntries(r, done))
      decreases last - minute
    {
      var nextMinute := Next(ToMinute, minute);
      if nextMinute > last {
        nextMinute := last;
      }
      MinuteLoopNext(r, acc, m, cs, done, minute, nextMinute, last);
      var vmc := Vmc(Slice(r, minute, nextMinute), minute);
      m := m[vmc.key := vmc.value];
      done := done + [Interval(minute, nextMinute)];
      minute := nextMinute;
    }
    assert done == cs;
  }

  /** Every key the minute loop adds lies between its start and the last sample. */
  lemma MinuteKeysWithin(r: Series, start: int, i: nat)
    requires Increasing(r) && |r| > 0
    requires i < |MinuteEntries(r, start)|
    ensures start as real <= MinuteEntries(r, start)[i].key <= Last(r) as real
  {
    var cs := MinuteBuckets(r, start);
    BucketEntriesAt(r, cs, i);
    CutsWithin(ToMinute, start, Last(r), i);
    VmcKeyInBucket(r, cs[i].lo, cs[i].hi);
  }

  // ----------------------------------------------------- fetching a chunk

  /**
   * `get_r(get_acc_data(part_id, lo, hi))`: the samples strictly inside
   * (lo, hi) at microsecond resolution, or, when there are none, the single
   * placeholder row at `lo` (whose value the model does not carry).
   */
  function Fetch(rec: Series, lo: int, hi: int): (r: Series)
    ensures |r| > 0
  {
    var found := Slice(rec, lo + 1, hi - 1);
    if found == [] then [Sample(lo, 0.0)] else found
  }

  /**
   * A fetched chunk starts no earlier than its query and, unless it is the
   * placeholder row at `lo`, ends before the end of the query; when the query
   * finds nothing the minute loop adds nothing.
   */
  lemma FetchWithin(rec: Series, lo: int, hi: int)
    requires Increasing(rec)
    ensures Increasing(Fetch(rec, lo, hi))
    ensures lo <= First(Fetch(rec, lo, hi))
    ensures Last(Fetch(rec, lo, hi)) == lo || Last(Fetch(rec, lo, hi)) < hi
    ensures Slice(rec, lo + 1, hi - 1) == [] ==> MinuteEntries(Fetch(rec, lo, hi), lo) == []
  {
    SliceIncreasing(rec, lo + 1, hi - 1);
    SliceWithin(rec, lo + 1, hi - 1);
  }

  // -------------------------------------------------------------- hour loop

  /** The entries one hour chunk contributes: the minute loop over its fetched data. */
  function HourEntries(rec: Series, c: Interval): seq<VmcEntry> {
    MinuteEntries(Fetch(rec, c.lo, c.hi), c.lo)
  }

  /** The entries of the hour chunks `hs`, in loop order. */
  function HoursEntries(rec: Series, hs: seq<Interval>): seq<VmcEntry> {
    if hs == [] then [] else HoursEntries(rec, hs[..|hs| - 1]) + HourEntries(rec, hs[|hs| - 1])
  }

  /** Every key an hour chunk adds lies inside that chunk, before its end. */
  lemma HourKeysWithin(rec: Series, c: Interval, i: nat)
    requires Increasing(rec) && c.lo < c.hi
    requires i < |HourEntries(rec, c)|
    ensures c.lo as real <= HourEntries(rec, c)[i].key < c.hi as real
  {
    var r := Fetch(rec, c.lo, c.hi);
    FetchWithin(rec, c.lo, c.hi);
    MinuteKeysWithin(r, c.lo, i);
  }

  /** The end of the day that starts at `dayBeg`: the next midnight, clipped to the end of the record. */
  function DayEnd(dayBeg: int, dateEnd: int): int {
    Min(Next(ToMidnight, dayBeg), dateEnd)
  }

  /** The hour chunks of the day that starts at `dayBeg`. */
  function DayHours(dayBeg: int, dateEnd: int): seq<Interval> {
    Cuts(PlusHour, dayBeg, DayEnd(dayBeg, dateEnd))
  }

  /**
   * The day's end is the first midnight after its start or the end of the
   * record; its hour chunks start at the day's start, last one hour except
   * the clipped final one, follow each other without gaps and end at the
   * day's end.
   */
  lemma DayPlan(dayBeg: int, dateEnd: int)
    ensures var e := DayEnd(dayBeg, dateEnd);
      && e <= dateEnd && e <= Next(ToMidnight, dayBeg)
      && (e == dateEnd || (e % DAY == 0 && dayBeg < e <= dayBeg + DAY))
    ensures var hs, e := DayHours(dayBeg, dateEnd), DayEnd(dayBeg, dateEnd);
      && (hs == [] <==> e <= dayBeg)
      && (hs != [] ==> hs[0].lo == dayBeg && hs[|hs| - 1].hi == e)
      && (forall i :: 0 <= i < |hs| ==> hs[i].lo < hs[i].hi == Min(hs[i].lo + HOUR, e))
      && (forall i :: 0 <= i < |hs| - 1 ==> hs[i].hi == hs[i + 1].lo)
  {
    CutsShape(PlusHour, dayBeg, DayEnd(dayBeg, dateEnd));
  }

  lemma HoursStep(rec: Series, acc: VmcSerie, done: seq<Interval>, c: Interval)
    ensures Collect(acc, HoursEntries(rec, done + [c])) == Collect(Collect(acc, HoursEntries(rec, done)), HourEntries(rec, c))
  {
    assert (done + [c])[..|done|] == done;
    CollectAppend(acc, HoursEntries(rec, done), HourEntries(rec, c));
  }

  /** One iteration of the hour loop: the chunk [hourBeg, hourEnd] is done and its minutes collected. */
  lemma HourLoopNext(rec: Series, acc: VmcSerie, m: VmcSerie, cs: seq<Interval>, done: seq<Interval>,
                     hourBeg: int, hourEnd: int, dayEnd: int)
    requires hourBeg < dayEnd && hourEnd == Min(hourBeg + HOUR, dayEnd)
    requires done + Cuts(PlusHour, hourBeg, dayEnd) == cs
    requires m == Collect(acc, HoursEntries(rec, done))
    ensures (done + [Interval(hourBeg, hourEnd)]) + Cuts(PlusHour, hourEnd, dayEnd) == cs
    ensures Collect(m, MinuteEntries(Fetch(rec, hourBeg, hourEnd), hourBeg)) ==
      Collect(acc, HoursEntries(rec, done + [Interval(hourBeg, hourEnd)]))
  {
    var c := Interval(hourBeg, hourEnd);
    CutsStep(PlusHour, hourBeg, dayEnd);
    assert Cuts(PlusHour, hourBeg, dayEnd) == [c] + Cuts(PlusHour, hourEnd, dayEnd);
    assert (done + [c]) + Cuts(PlusHour, hourEnd, dayEnd) == done + ([c] + Cuts(PlusHour, hourEnd, dayEnd));
    HoursStep(rec, acc, done, c);
  }

  /** The hour loop of `get_VMC_serie`: fetch every hour chunk of the day and run the minute loop on it. */
  method CollectHours(rec: Series, dayBeg: int, dayEnd: int, acc: VmcSerie) returns (m: VmcSerie)
    ensures m == Collect(acc, HoursEntries(rec, Cuts(PlusHour, dayBeg, dayEnd)))
  {
    ghost var cs := Cuts(PlusHour, dayBeg, dayEnd);
    ghost var done: seq<Interval> := [];
    m := acc;
    var hourBeg := dayBeg;
    while hourBeg < dayEnd
      invariant done + Cuts(PlusHour, hourBeg, dayEnd) == cs
      invariant m == Collect(acc, HoursEntries(rec, done))
      decreases dayEnd - hourBeg
    {
      var hourEnd := hourBeg + HOUR;
      if hourEnd > dayEnd {
        hourEnd := dayEnd;
      }
      HourLoopNext(rec, acc, m, cs, done, hourBeg, hourEnd, dayEnd);
      var r1Hour := Fetch(rec, hourBeg, hourEnd);
      m := CollectMinutes(r1Hour, hourBeg, m);
      done := done + [Interval(hourBeg, hourEnd)];
      hourBeg := hourEnd;
    }
    assert done == cs;
  }

  // ------------------------------------------------- weekdays and weekends

  /**
   * The days the loop of `get_days_by_weekday_weekend` keeps from `current`
   * on: each date before the date of `end` that is not a weekend date, at
   * the time of day of the start.
   */
  function WeekdaysFrom(current: int, end: int, weekends: seq<int>): seq<int>
    decreases DateOf(end) - DateOf(current)
  {
    if DateOf(end) <= DateOf(current) then []
    else
      DateOfNextDay(current);
      (if DateOf(current) in weekends then [] else [current]) + WeekdaysFrom(current + DAY, end, weekends)
  }

  /**
   * `get_days_by_weekday_weekend` for one participant: the weekend list is
   * the Saturdays followed by the Sundays; the weekday list steps a cursor
   * one day at a time from the start date up to, excluding, the end date.
   * Dates are represented by their local midnight.
   */
  method DaysByWeekdayWeekend(dateStart: int, dateEnd: int, saturdays: seq<int>, sundays: seq<int>)
    returns (weekdays: seq<int>, weekends: seq<int>)
    ensures weekends == saturdays + sundays
    ensures weekdays == WeekdaysFrom(dateStart, dateEnd, weekends)
  {
    weekends := saturdays + sundays;
    weekdays := [];
    var current := dateStart;
    while DateOf(current) < DateOf(dateEnd)
      invariant weekdays + WeekdaysFrom(current, dateEnd, weekends) == WeekdaysFrom(dateStart, dateEnd, weekends)
      decreases DateOf(dateEnd) - DateOf(current)
    {
      var rest := WeekdaysFrom(current + DAY, dateEnd, weekends);
      if DateOf(current) !in weekends {
        assert WeekdaysFrom(current, dateEnd, weekends) == [current] + rest;
        assert weekdays + ([current] + rest) == (weekdays + [current]) + rest;
        weekdays := weekdays + [current];
      } else {
        assert WeekdaysFrom(current, dateEnd, weekends) == rest;
      }
      DateOfNextDay(current);
      current := current + DAY;
    }
    assert weekdays + [] == weekdays;
  }

  /**
   * A timestamp is listed exactly when it is the start moved forward by a
   * whole number of days, its date lies before the end date, and that date
   * is not a weekend date.
   */
  lemma {:induction false} WeekdaysMembers(start: int, end: int, weekends: seq<int>, x: int)
    ensures x in WeekdaysFrom(start, end, weekends) <==>
      exists k: nat :: x == CalendarDay(start, k) && DateOf(x) < DateOf(end) && DateOf(x) !in weekends
  {
    if x in WeekdaysFrom(start, end, weekends) {
      WeekdaysListOnlyKeptDays(start, end, weekends, x);
    }
    if exists k: nat :: x == CalendarDay(start, k) && DateOf(x) < DateOf(end) && DateOf(x) !in weekends {
      var k: nat :| x == CalendarDay(start, k) && DateOf(x) < DateOf(end) && DateOf(x) !in weekends;
      WeekdaysListKeptDay(start, end, weekends, k);
    }
  }

  /** Every listed timestamp is a whole number of days after the start, on a kept date. */
  lemma {:induction false} WeekdaysListOnlyKeptDays(start: int, end: int, weekends: seq<int>, x: int)
    requires x in WeekdaysFrom(start, end, weekends)
    ensures exists k: nat :: x == CalendarDay(start, k) && DateOf(x) < DateOf(end) && DateOf(x) !in weekends
    decreases DateOf(end) - DateOf(start)
  {
    var rest := WeekdaysFrom(start + DAY, end, weekends);
    DateOfNextDay(start);
    if x in rest {
      WeekdaysListOnlyKeptDays(start + DAY, end, weekends, x);
      var k: nat :| x == CalendarDay(start + DAY, k) && DateOf(x) < DateOf(end) && DateOf(x) !in weekends;
      assert x == CalendarDay(start, k + 1);
    } else {
      assert x == CalendarDay(start, 0);
    }
  }

  /** Every kept date before the end date is listed. */
  lemma {:induction false} WeekdaysListKeptDay(start: int, end: int, weekends: seq<int>, k: nat)
    requires DateOf(CalendarDay(start, k)) < DateOf(end) && DateOf(CalendarDay(start, k)) !in weekends
    ensures CalendarDay(start, k) in WeekdaysFrom(start, end, weekends)
    decreases k
  {
    DateOfLaterDay(start, k);
    DateOfNextDay(start);
    var rest := WeekdaysFrom(start + DAY, end, weekends);
    if k > 0 {
      assert CalendarDay(start, k) == CalendarDay(start + DAY, k - 1);
      WeekdaysListKeptDay(start + DAY, end, weekends, k - 1);
      assert CalendarDay(start, k) in rest;
    }
  }

  /** The weekday list is in ascending order, and starts no earlier than its cursor. */
  lemma {:induction false} WeekdaysAscending(start: int, end: int, weekends: seq<int>)
    ensures forall i :: 0 <= i < |WeekdaysFrom(start, end, weekends)| ==> start <= WeekdaysFrom(start, end, weekends)[i]
    ensures forall i, j :: 0 <= i < j < |WeekdaysFrom(start, end, weekends)| ==>
      WeekdaysFrom(start, end, weekends)[i] < WeekdaysFrom(start, end, weekends)[j]
    decreases DateOf(end) - DateOf(start)
  {
    if DateOf(start) < DateOf(end) {
      var rest := WeekdaysFrom(start + DAY, end, weekends);
      var head := if DateOf(start) in weekends then [] else [start];
      DateOfNextDay(start);
      WeekdaysAscending(start + DAY, end, weekends);
      var ws := WeekdaysFrom(start, end, weekends);
      assert ws == head + rest;
      forall i | 0 <= i < |ws|
        ensures start <= ws[i] && (|head| <= i ==> start + DAY <= ws[i])
      {
        if |head| <= i {
          assert ws[i] == rest[i - |head|];
        }
      }
      forall i, j | 0 <= i < j < |ws|
        ensures ws[i] < ws[j]
      {
        if |head| <= i {
          assert ws[i] == rest[i - |head|] && ws[j] == rest[j - |head|];
        }
      }
    }
  }

  // --------------------------------------------------------- get_VMC_serie

  /** The `days` list: the weekdays and/or the weekend days, as selected. */
  function SelectedDays(weekdays: seq<int>, weekends: seq<int>, onWeekday: bool, onWeekend: bool): seq<int> {
    (if onWeekday then weekdays else []) + (if onWeekend then weekends else [])
  }

  /** The entries of every hour of every selected day, in loop order. */
  function DaysEntries(rec: Series, days: seq<int>, dateEnd: int): seq<VmcEntry> {
    if days == [] then []
    else DaysEntries(rec, days[..|days| - 1], dateEnd) + HoursEntries(rec, DayHours(days[|days| - 1], dateEnd))
  }

  /** What `get_VMC_serie` returns: nothing when no day is selected, otherwise the dict of all VMCs. */
  function VmcSerieOf(rec: Series, dateStart: int, dateEnd: int, saturdays: seq<int>, sundays: seq<int>,
                      onWeekday: bool, onWeekend: bool): Option<VmcSerie>
  {
    var weekends := saturdays + sundays;
    var days := SelectedDays(WeekdaysFrom(dateStart, dateEnd, weekends), weekends, onWeekday, onWeekend);
    if days == [] then None else Some(Collect(map[], DaysEntries(rec, days, dateEnd)))
  }

  lemma DaysStep(rec: Series, days: seq<int>, i: nat, dateEnd: int)
    requires i < |days|
    ensures Collect(map[], DaysEntries(rec, days[..i + 1], dateEnd)) ==
      Collect(Collect(map[], DaysEntries(rec, days[..i], dateEnd)), HoursEntries(rec, DayHours(days[i], dateEnd)))
  {
    assert days[..i + 1][..i] == days[..i];
    CollectAppend(map[], DaysEntries(rec, days[..i], dateEnd), HoursEntries(rec, DayHours(days[i], dateEnd)));
  }

  /** The day loop of `get_VMC_serie`: every selected day, from its start to its next midnight or the end of the record. */
  method CollectDays(rec: Series, days: seq<int>, dateEnd: int) returns (vmcSerie: VmcSerie)
    ensures vmcSerie == Collect(map[], DaysEntries(rec, days, dateEnd))
  {
    vmcSerie := map[];
    for i := 0 to |days|
      invariant vmcSerie == Collect(map[], DaysEntries(rec, days[..i], dateEnd))
    {
      var dayBeg := days[i];
      var dayEnd := Next(ToMidnight, dayBeg);
      if dayEnd > dateEnd {
        dayEnd := dateEnd;
      }
      assert dayEnd == DayEnd(dayBeg, dateEnd);
      DaysStep(rec, days, i, dateEnd);
      vmcSerie := CollectHours(rec, dayBeg, dayEnd, vmcSerie);
    }
    assert days[..|days|] == days;
  }

  /**
   * `get_VMC_serie`: split the record's dates into weekdays and weekend
   * days, keep the selected ones, and collect the VMC of every minute of
   * every hour of those days; with no day selected there is no result.
   */
  method VmcSerieOfParticipant(rec: Series, dateStart: int, dateEnd: int, saturdays: seq<int>, sundays: seq<int>,
                               onWeekday: bool, onWeekend: bool) returns (result: Option<VmcSerie>)
    ensures result == VmcSerieOf(rec, dateStart, dateEnd, saturdays, sundays, onWeekday, onWeekend)
  {
    var weekdays, weekends := DaysByWeekdayWeekend(dateStart, dateEnd, saturdays, sundays);
    var days: seq<int> := [];
    if onWeekday {
      days := days + weekdays;
    }
    if onWeekend {
      days := days + weekends;
    }
    assert days == SelectedDays(weekdays, weekends, onWeekday, onWeekend);
    if days == [] {
      return None;
    }
    var vmcSerie := CollectDays(rec, days, dateEnd);
    return Some(vmcSerie);
  }

  /** With neither weekdays nor weekends selected, `get_VMC_serie` returns early with no result. */
  lemma NoDaySelected(rec: Series, dateStart: int, dateEnd: int, saturdays: seq<int>, sundays: seq<int>)
    ensures VmcSerieOf(rec, dateStart, dateEnd, saturdays, sundays, false, false) == None
  {
  }

  /** More generally, there is no result exactly when the selected lists are empty. */
  lemma VmcSerieNone(rec: Series, dateStart: int, dateEnd: int, saturdays: seq<int>, sundays: seq<int>,
                     onWeekday: bool, onWeekend: bool)
    ensures VmcSerieOf(rec, dateStart, dateEnd, saturdays, sundays, onWeekday, onWeekend).None? <==>
      (!onWeekday || WeekdaysFrom(dateStart, dateEnd, saturdays + sundays) == []) &&
      (!onWeekend || saturdays + sundays == [])
  {
  }

  // ------------------------------------------- get_VMC_serie_by_date_range

  /**
   * What `get_VMC_serie_by_date_range` returns: the minute loop over one
   * fetch of the whole range. When the range holds no sample, the fetched
   * frame is the placeholder row, labelled by the start string itself, and
   * the loop's first comparison of the cursor with that label raises; `None`
   * stands for that failure.
   */
  function VmcSerieByDateRangeOf(rec: Series, beg: int, end: int): Option<VmcSerie> {
    if Slice(rec, beg + 1, end - 1) == [] then None
    else Some(Collect(map[], MinuteEntries(Fetch(rec, beg, end), beg)))
  }

  method VmcSerieByDateRange(rec: Series, beg: int, end: int) returns (result: Option<VmcSerie>)
    ensures result == VmcSerieByDateRangeOf(rec, beg, end)
  {
    var found := Slice(rec, beg + 1, end - 1);
    if found == [] {
      return None;
    }
    var r := Fetch(rec, beg, end);
    var vmcSerie := CollectMinutes(r, beg, map[]);
    return Some(vmcSerie);
  }

  /** The date-range series fails exactly when no sample lies strictly inside the range. */
  lemma DateRangeFails(rec: Series, beg: int, end: int)
    ensures VmcSerieByDateRangeOf(rec, beg, end).None? <==>
      forall i :: 0 <= i < |rec| ==> !(beg < rec[i].t < end)
  {
    if Slice(rec, beg + 1, end - 1) == [] {
      forall i | 0 <= i < |rec| && beg < rec[i].t < end
        ensures false
      {
        SliceKeeps(rec, beg + 1, end - 1, rec[i]);
      }
    } else {
      var found := Slice(rec, beg + 1, end - 1);
      SliceWithin(rec, beg + 1, end - 1);
      assert found[0] in rec;
    }
  }

  /** Every key of the date-range series lies inside the requested range, before its end. */
  lemma DateRangeKeysWithin(rec: Series, beg: int, end: int, k: real)
    requires Increasing(rec) && beg < end
    requires VmcSerieByDateRangeOf(rec, beg, end).Some?
    requires k in VmcSerieByDateRangeOf(rec, beg, end).value
    ensures beg as real <= k < end as real
  {
    var es := MinuteEntries(Fetch(rec, beg, end), beg);
    CollectKeys(map[], es);
    var e :| e in es && e.key == k;
    var i :| 0 <= i < |es| && es[i] == e;
    assert HourEntries(rec, Interval(beg, end)) == es;
    HourKeysWithin(rec, Interval(beg, end), i);
  }

  /** A range that holds a sample gives a series with at least one minute entry. */
  lemma DateRangeNonEmpty(rec: Series, beg: int, end: int)
    requires VmcSerieByDateRangeOf(rec, beg, end).Some?
    ensures VmcSerieByDateRangeOf(rec, beg, end).value != map[]
  {
    var r := Fetch(rec, beg, end);
    var found := Slice(rec, beg + 1, end - 1);
    SliceWithin(rec, beg + 1, end - 1);
    assert beg < Last(r) by {
      assert r == found && found[|found| - 1] in rec;
    }
    var es := MinuteEntries(r, beg);
    MinutePlan(r, beg);
    CollectKeys(map[], es);
    assert es[0] in es;
    assert es[0].key in Collect(map[], es);
  }

  // ------------------------------------------------------------ limit strings

  /**
   * The limit strings of `get_acc_data`: the shorter of the two printed
   * limits gets the tail of the longer one appended (its time-zone suffix),
   * and both are wrapped in double quotes.
   */
  function AccLimitStrings(lower: string, upper: string): (r: (string, string))
    ensures |r.0| == |r.1|
    ensures |lower| <= |upper| ==> |r.1| == |upper| + 2
    ensures |upper| <= |lower| ==> |r.0| == |lower| + 2
    ensures r.0[0] == '"' && r.0[|r.0| - 1] == '"' && r.0[1..|lower| + 1] == lower
    ensures r.1[0] == '"' && r.1[|r.1| - 1] == '"' && r.1[1..|upper| + 1] == upper
    ensures |upper| <= |lower| ==> r.0 == "\"" + lower + "\""
    ensures |lower| <= |upper| ==> r.1 == "\"" + upper + "\""
    ensures |lower| < |upper| ==> r.0[|lower| + 1..|upper| + 1] == upper[|lower|..]
    ensures |upper| < |lower| ==> r.1[|upper| + 1..|lower| + 1] == lower[|upper|..]
  {
    var minLen := if |lower| <= |upper| then |lower| else |upper|;
    var lastChunkLower := if |lower| > minLen then lower[minLen..] else "";
    var lastChunkUpper := if |lower| > minLen then "" else if |upper| > minLen then upper[minLen..] else "";
    ("\"" + lower + lastChunkUpper + "\"", "\"" + upper + lastChunkLower + "\"")
  }

  /** The limit strings of `get_HR_data`: both printed limits cut to the shorter length and quoted. */
  function HrLimitStrings(lower: string, upper: string): (r: (string, string))
    ensures |r.0| == |r.1| && |r.0| - 2 == if |lower| <= |upper| then |lower| else |upper|
    ensures r.0[0] == '"' && r.0[|r.0| - 1] == '"' && r.1[0] == '"' && r.1[|r.1| - 1] == '"'
    ensures r.0[1..|r.0| - 1] == lower[..|r.0| - 2]
    ensures r.1[1..|r.1| - 1] == upper[..|r.1| - 2]
    ensures |lower| <= |upper| ==> r.0 == "\"" + lower + "\""
    ensures |upper| <= |lower| ==> r.1 == "\"" + upper + "\""
  {
    var minLen := if |lower| <= |upper| then |lower| else |upper|;
    ("\"" + lower[..minLen] + "\"", "\"" + upper[..minLen] + "\"")
  }
}
