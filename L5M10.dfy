/**
 * L5 and M10 of an activity record: the midpoint of the five hours with the
 * lowest mean value and of the ten hours with the highest mean value.
 *
 * A window is anchored at every sample timestamp t and covers the CLOSED
 * interval [t, t + width] (label slicing includes both ends); the scan stops
 * at the first anchor whose window would end after the last sample. A record
 * spanning more than one day is cut at local midnights, each day is scanned
 * on its own, and the per-day midpoints are averaged as numbers.
 */
module L5M10 {
  import opened TimeSeries
  import opened Calendar

  const L5_WINDOW: nat := 5 * HOUR
  const M10_WINDOW: nat := 10 * HOUR

  /**
   * EmptySeries: the record has no sample (`data.index[0]` raises).
   * TooShort: the L5 span guard, which returns `False`.
   * NoWindow: no window fits, so `min`/`max` of the empty dict raises.
   */
  datatype Failure = EmptySeries | TooShort | NoWindow

  datatype Result<T> = Ok(value: T) | Err(error: Failure)

  /** Lowest for L5 (`min`), Highest for M10 (`max`). */
  datatype Direction = Lowest | Highest

  /** `x` strictly beats `y` in direction `dir`: the comparison that lets `min`/`max` replace its candidate. */
  predicate Beats(dir: Direction, x: real, y: real) {
    match dir
    case Lowest => x < y
    case Highest => x > y
  }

  /** One entry of the `averages_5h` / `averages_10h` dict: midpoint key and window mean. */
  datatype WindowAverage = WindowAverage(midpoint: int, mean: real)

  /**
   * The window anchored at sample `i`: keyed by its midpoint `t + width / 2`,
   * valued by the mean of the samples in [t, t + width] (never empty: it
   * holds sample `i` itself).
   */
  function WindowAt(data: Series, width: nat, i: nat): WindowAverage
    requires i < |data|
  {
    var a, b := data[i].t, data[i].t + width;
    CountWithinPositive(data, a, b, |data|, i);
    WindowAverage(a + width / 2, SumWithin(data, a, b, |data|) / (CountWithin(data, a, b, |data|) as real))
  }

  /** A window's value is the arithmetic mean of exactly the samples its label slice selects. */
  lemma WindowMeanIsSliceMean(data: Series, width: nat, i: nat)
    requires i < |data|
    ensures |Slice(data, data[i].t, data[i].t + width)| > 0
    ensures WindowAt(data, width, i).mean == Mean(Values(Slice(data, data[i].t, data[i].t + width)))
  {
    var a, b := data[i].t, data[i].t + width;
    WithinIsSlice(data, a, b, |data|);
    assert data[..|data|] == data;
    CountWithinPositive(data, a, b, |data|, i);
  }

  /**
   * The number of windows the scan records from anchor `i` on: every anchor
   * before it fits, and the anchor at it (if any) is the first to overflow.
   */
  function AnchorCount(data: Series, width: nat, i: nat): (n: nat)
    requires i <= |data|
    ensures i <= n <= |data|
    decreases |data| - i
  {
    if i == |data| || Last(data) < data[i].t + width then i
    else AnchorCount(data, width, i + 1)
  }

  lemma {:induction false} AnchorCountStops(data: Series, width: nat, i: nat)
    requires i <= |data|
    ensures forall j :: i <= j < AnchorCount(data, width, i) ==> data[j].t + width <= Last(data)
    ensures AnchorCount(data, width, i) < |data| ==> Last(data) < data[AnchorCount(data, width, i)].t + width
    decreases |data| - i
  {
    if i < |data| && data[i].t + width <= Last(data) {
      AnchorCountStops(data, width, i + 1);
    }
  }

  /** The windows the scan records from anchor `i` on. */
  function ScanFrom(data: Series, width: nat, i: nat): (ws: seq<WindowAverage>)
    requires i <= |data|
    ensures |ws| == AnchorCount(data, width, i) - i
    decreases |data| - i
  {
    if i == |data| || Last(data) < data[i].t + width then []
    else [WindowAt(data, width, i)] + ScanFrom(data, width, i + 1)
  }

  /** Every window of the short-period scan, in scan order. */
  function Windows(data: Series, width: nat): seq<WindowAverage> {
    ScanFrom(data, width, 0)
  }

  lemma {:induction false} ScanFromAt(data: Series, width: nat, i: nat, k: nat)
    requires i <= |data| && i <= k < AnchorCount(data, width, i)
    ensures ScanFrom(data, width, i)[k - i] == WindowAt(data, width, k)
    decreases k - i
  {
    if i < k {
      ScanFromAt(data, width, i + 1, k);
    }
  }

  /** The k-th recorded window is the one anchored at the k-th sample. */
  lemma WindowsAt(data: Series, width: nat, k: nat)
    requires k < |Windows(data, width)|
    ensures Windows(data, width)[k] == WindowAt(data, width, k)
  {
    ScanFromAt(data, width, 0, k);
  }

  /** Every recorded window is anchored at a sample whose window ends no later than the last sample. */
  lemma RecordedWindowsFit(data: Series, width: nat, k: nat)
    requires k < |Windows(data, width)|
    ensures k < |data| && data[k].t + width <= Last(data)
    ensures Windows(data, width)[k].midpoint == data[k].t + width / 2
  {
    WindowsAt(data, width, k);
    AnchorCountStops(data, width, 0);
  }

  /** Once an anchor overflows, every later anchor of an increasing record overflows too. */
  lemma LaterAnchorsOverflow(data: Series, width: nat, j: nat)
    requires Increasing(data)
    requires |Windows(data, width)| <= j < |data|
    ensures Last(data) < data[j].t + width
  {
    var n := |Windows(data, width)|;
    AnchorCountStops(data, width, 0);
    if n < j {
      assert data[n].t < data[j].t;
    }
  }

  /** Midpoint keys strictly increase, so no window overwrites an earlier one in the dict. */
  lemma WindowKeysIncreasing(data: Series, width: nat, a: nat, b: nat)
    requires Increasing(data)
    requires a < b < |Windows(data, width)|
    ensures Windows(data, width)[a].midpoint < Windows(data, width)[b].midpoint
  {
    WindowsAt(data, width, a);
    WindowsAt(data, width, b);
  }

  /**
   * `min(d, key=d.get)` / `max(d, key=d.get)` over a dict in insertion order:
   * the FIRST window whose mean no other window beats.
   */
  function FirstExtremum(ws: seq<WindowAverage>, dir: Direction): (k: nat)
    requires |ws| > 0
    ensures k < |ws|
  {
    if |ws| == 1 then 0
    else
      var k := FirstExtremum(ws[..|ws| - 1], dir);
      if Beats(dir, ws[|ws| - 1].mean, ws[k].mean) then |ws| - 1 else k
  }

  /** No window beats the chosen one, and the chosen one strictly beats every window before it. */
  lemma {:induction false} FirstExtremumChoice(ws: seq<WindowAverage>, dir: Direction)
    requires |ws| > 0
    ensures forall j :: 0 <= j < |ws| ==> !Beats(dir, ws[j].mean, ws[FirstExtremum(ws, dir)].mean)
    ensures forall j :: 0 <= j < FirstExtremum(ws, dir) ==> Beats(dir, ws[FirstExtremum(ws, dir)].mean, ws[j].mean)
  {
    if |ws| > 1 {
      FirstExtremumChoice(ws[..|ws| - 1], dir);
    }
  }

  /** What `get_L5_short_period` / `get_M10_short_period` return for `data`. */
  function ShortPeriodExtremum(data: Series, width: nat, dir: Direction): Result<int> {
    var ws := Windows(data, width);
    if ws == [] then Err(NoWindow) else Ok(ws[FirstExtremum(ws, dir)].midpoint)
  }

  /** The short-period helper: fill the dict in a loop with `break`, then select the extremum. */
  method FindShortPeriod(data: Series, width: nat, dir: Direction) returns (r: Result<int>)
    ensures r == ShortPeriodExtremum(data, width, dir)
  {
    var averages: seq<WindowAverage> := [];
    var i := 0;
    while i < |data|
      invariant 0 <= i <= |data|
      invariant averages + ScanFrom(data, width, i) == Windows(data, width)
    {
      var begWindow := data[i].t;
      var endWindow := begWindow + width;
      if endWindow > data[|data| - 1].t {
        assert ScanFrom(data, width, i) == [];
        break;
      }
      var w := WindowAt(data, width, i);
      assert ScanFrom(data, width, i) == [w] + ScanFrom(data, width, i + 1);
      averages := averages + [w];
      i := i + 1;
    }
    assert averages == Windows(data, width);
    if averages == [] {
      return Err(NoWindow);
    }
    var k := FirstExtremum(averages, dir);
    return Ok(averages[k].midpoint);
  }

  /**
   * A successful scan returns the midpoint of a recorded window that no
   * window beats and that strictly beats every window recorded before it.
   */
  lemma ShortPeriodChoice(data: Series, width: nat, dir: Direction)
    requires ShortPeriodExtremum(data, width, dir).Ok?
    ensures exists k ::
      && 0 <= k < |Windows(data, width)|
      && ShortPeriodExtremum(data, width, dir).value == Windows(data, width)[k].midpoint
      && (forall j :: 0 <= j < |Windows(data, width)| ==> !Beats(dir, Windows(data, width)[j].mean, Windows(data, width)[k].mean))
      && (forall j :: 0 <= j < k ==> Beats(dir, Windows(data, width)[k].mean, Windows(data, width)[j].mean))
  {
    var ws := Windows(data, width);
    FirstExtremumChoice(ws, dir);
    var k := FirstExtremum(ws, dir);
    assert ShortPeriodExtremum(data, width, dir).value == ws[k].midpoint;
  }

  /** The short-period helper fails exactly when no window fits in the record. */
  lemma ShortPeriodFails(data: Series, width: nat, dir: Direction)
    ensures ShortPeriodExtremum(data, width, dir).Err? <==>
      data == [] || Last(data) < First(data) + width
    ensures ShortPeriodExtremum(data, width, dir).Err? ==>
      ShortPeriodExtremum(data, width, dir).error == NoWindow
  {
    if data != [] && First(data) + width <= Last(data) {
      assert Windows(data, width) != [];
    }
  }

  /** The selected midpoint is half a window inside both ends of the record. */
  lemma ShortPeriodBounds(data: Series, width: nat, dir: Direction)
    requires Increasing(data)
    requires ShortPeriodExtremum(data, width, dir).Ok?
    ensures First(data) + width / 2 <= ShortPeriodExtremum(data, width, dir).value
    ensures ShortPeriodExtremum(data, width, dir).value <= Last(data) - width / 2
  {
    var ws := Windows(data, width);
    var k := FirstExtremum(ws, dir);
    WindowsAt(data, width, k);
    AnchorCountStops(data, width, 0);
    if 0 < k {
      assert data[0].t < data[k].t;
    }
  }

  /** The short-period result for one day chunk, sliced with both ends included. */
  function DayExtremum(data: Series, width: nat, dir: Direction, c: Interval): Result<int> {
    ShortPeriodExtremum(Slice(data, c.lo, c.hi), width, dir)
  }

  /** The short-period result of every day chunk, in order. */
  function DayResults(data: Series, width: nat, dir: Direction, cs: seq<Interval>): (rs: seq<Result<int>>)
    ensures |rs| == |cs|
  {
    if cs == [] then []
    else DayResults(data, width, dir, cs[..|cs| - 1]) + [DayExtremum(data, width, dir, cs[|cs| - 1])]
  }

  lemma {:induction false} DayResultsAt(data: Series, width: nat, dir: Direction, cs: seq<Interval>, i: nat)
    requires i < |cs|
    ensures DayResults(data, width, dir, cs)[i] == DayExtremum(data, width, dir, cs[i])
  {
    if i < |cs| - 1 {
      DayResultsAt(data, width, dir, cs[..|cs| - 1], i);
    }
  }

  lemma {:induction false} DayResultsPrefix(data: Series, width: nat, dir: Direction, cs: seq<Interval>, k: nat)
    requires k <= |cs|
    ensures DayResults(data, width, dir, cs[..k]) == DayResults(data, width, dir, cs)[..k]
    decreases |cs|
  {
    if k < |cs| {
      assert cs[..|cs| - 1][..k] == cs[..k];
      DayResultsPrefix(data, width, dir, cs[..|cs| - 1], k);
    } else {
      assert cs[..k] == cs;
    }
  }

  /**
   * The `L5s` / `M10s` list built from the per-day results: every day's
   * midpoint as a number, or the error of the first day that fails, which
   * aborts the whole call.
   */
  function Gather(rs: seq<Result<int>>): (r: Result<seq<real>>)
    ensures r.Ok? ==> |r.value| == |rs|
    ensures r.Ok? ==> forall i :: 0 <= i < |rs| ==> rs[i].Ok? && r.value[i] == rs[i].value as real
  {
    if rs == [] then Ok([])
    else
      match Gather(rs[..|rs| - 1])
      case Err(e) => Err(e)
      case Ok(ys) =>
        match rs[|rs| - 1]
        case Err(e) => Err(e)
        case Ok(y) => Ok(ys + [y as real])
  }

  /** The error is that of the first failing day; with no failing day there is none. */
  lemma {:induction false} GatherFails(rs: seq<Result<int>>)
    ensures Gather(rs).Err? ==> exists i :: 0 <= i < |rs| && rs[i] == Err(Gather(rs).error) && forall j :: 0 <= j < i ==> rs[j].Ok?
    ensures (forall i :: 0 <= i < |rs| ==> rs[i].Ok?) ==> Gather(rs).Ok?
  {
    if rs != [] {
      var init := rs[..|rs| - 1];
      GatherFails(init);
      if Gather(init).Err? {
        var i :| 0 <= i < |init| && init[i] == Err(Gather(init).error) && forall j :: 0 <= j < i ==> init[j].Ok?;
        assert rs[i] == init[i];
        assert forall j :: 0 <= j < i ==> rs[j] == init[j];
      }
      if Gather(init).Ok? && rs[|rs| - 1].Err? {
        assert forall j :: 0 <= j < |rs| - 1 ==> rs[j] == init[j];
      }
    }
  }

  /** Adding one day to the loop's list. */
  lemma GatherSnoc(rs: seq<Result<int>>, x: Result<int>)
    ensures Gather(rs + [x]) ==
      if Gather(rs).Err? then Gather(rs)
      else if x.Err? then Err(x.error)
      else Ok(Gather(rs).value + [x.value as real])
  {
    assert (rs + [x])[..|rs|] == rs;
  }

  /** Once a prefix of the days has failed, later days do not change the outcome. */
  lemma {:induction false} GatherAbortsEarly(rs: seq<Result<int>>, k: nat)
    requires k <= |rs| && Gather(rs[..k]).Err?
    ensures Gather(rs) == Gather(rs[..k])
  {
    if k < |rs| {
      assert rs[..|rs| - 1][..k] == rs[..k];
      GatherAbortsEarly(rs[..|rs| - 1], k);
    } else {
      assert rs[..k] == rs;
    }
  }

  lemma DayResultsSnoc(data: Series, width: nat, dir: Direction, cs: seq<Interval>, c: Interval)
    ensures DayResults(data, width, dir, cs + [c]) == DayResults(data, width, dir, cs) + [DayExtremum(data, width, dir, c)]
  {
    assert (cs + [c])[..|cs|] == cs;
  }

  /** One iteration of the day loop: the short-period helper on the day's slice. */
  method FindDayExtremum(data: Series, width: nat, dir: Direction, c: Interval) returns (r: Result<int>)
    ensures r == DayExtremum(data, width, dir, c)
  {
    r := FindShortPeriod(Slice(data, c.lo, c.hi), width, dir);
  }

  /** The multi-day result: the numeric mean of the per-day midpoints. */
  function DayAverage(data: Series, width: nat, dir: Direction): Result<real>
    requires |data| > 0 && First(data) < Last(data)
  {
    var cs := Cuts(ToMidnight, First(data), Last(data));
    match Gather(DayResults(data, width, dir, cs))
    case Err(e) => Err(e)
    case Ok(ys) => Ok(Mean(ys))
  }

  /** The day loop after a successful day: its midpoint joins the list. */
  lemma DayLoopNext(data: Series, width: nat, dir: Direction, done: seq<Interval>, c: Interval, ys: seq<real>)
    requires Gather(DayResults(data, width, dir, done)) == Ok(ys)
    requires DayExtremum(data, width, dir, c).Ok?
    ensures Gather(DayResults(data, width, dir, done + [c])) == Ok(ys + [DayExtremum(data, width, dir, c).value as real])
  {
    DayResultsSnoc(data, width, dir, done, c);
    GatherSnoc(DayResults(data, width, dir, done), DayExtremum(data, width, dir, c));
  }

  /** The day loop after a failing day: the whole call fails with that day's error. */
  lemma DayLoopAbort(data: Series, width: nat, dir: Direction, cs: seq<Interval>, done: seq<Interval>, c: Interval, rest: seq<Interval>)
    requires cs == done + [c] + rest
    requires Gather(DayResults(data, width, dir, done)).Ok?
    requires DayExtremum(data, width, dir, c).Err?
    ensures Gather(DayResults(data, width, dir, cs)) == Err(DayExtremum(data, width, dir, c).error)
  {
    DayResultsSnoc(data, width, dir, done, c);
    GatherSnoc(DayResults(data, width, dir, done), DayExtremum(data, width, dir, c));
    var k := |done| + 1;
    assert cs[..k] == done + [c];
    DayResultsPrefix(data, width, dir, cs, k);
    GatherAbortsEarly(DayResults(data, width, dir, cs), k);
  }

  /** The day loop shared by `get_L5` and `get_M10`: walk a cursor from midnight to midnight. */
  method AggregateByDay(data: Series, width: nat, dir: Direction) returns (r: Result<real>)
    requires |data| > 0 && First(data) < Last(data)
    ensures r == DayAverage(data, width, dir)
  {
    var first, last := data[0].t, data[|data| - 1].t;
    ghost var cs := Cuts(ToMidnight, first, last);
    ghost var done: seq<Interval> := [];
    var dayResults: seq<real> := [];
    var begDay := first;
    while begDay < last
      invariant done + Cuts(ToMidnight, begDay, last) == cs
      invariant Gather(DayResults(data, width, dir, done)) == Ok(dayResults)
      decreases last - begDay
    {
      var endDay := Next(ToMidnight, begDay);
      if endDay > last {
        endDay := last;
      }
      var c := Interval(begDay, endDay);
      CutsAdvance(ToMidnight, done, cs, begDay, last);
      var dayResult := FindDayExtremum(data, width, dir, c);
      if dayResult.Err? {
        DayLoopAbort(data, width, dir, cs, done, c, Cuts(ToMidnight, endDay, last));
        return Err(dayResult.error);
      }
      DayLoopNext(data, width, dir, done, c, dayResults);
      dayResults := dayResults + [dayResult.value as real];
      done := done + [c];
      begDay := endDay;
    }
    assert done == cs;
    return Ok(Mean(dayResults));
  }

  function AsReal(r: Result<int>): Result<real> {
    match r
    case Ok(t) => Ok(t as real)
    case Err(e) => Err(e)
  }

  /** What `get_L5` returns. */
  function L5(data: Series): Result<real> {
    if data == [] then Err(EmptySeries)
    else if Last(data) - First(data) < L5_WINDOW then Err(TooShort)
    else if First(data) + DAY < Last(data) then DayAverage(data, L5_WINDOW, Lowest)
    else AsReal(ShortPeriodExtremum(data, L5_WINDOW, Lowest))
  }

  /** What `get_M10` returns: the same shape without the short-span guard. */
  function M10(data: Series): Result<real> {
    if data == [] then Err(EmptySeries)
    else if First(data) + DAY < Last(data) then DayAverage(data, M10_WINDOW, Highest)
    else AsReal(ShortPeriodExtremum(data, M10_WINDOW, Highest))
  }

  method GetL5(data: Series) returns (r: Result<real>)
    ensures r == L5(data)
  {
    if |data| == 0 {
      return Err(EmptySeries);
    }
    var begTimestamp, endTimestamp := data[0].t, data[|data| - 1].t;
    if endTimestamp - begTimestamp < L5_WINDOW {
      return Err(TooShort);
    }
    if begTimestamp + DAY < endTimestamp {
      r := AggregateByDay(data, L5_WINDOW, Lowest);
    } else {
      var l5 := FindShortPeriod(data, L5_WINDOW, Lowest);
      r := AsReal(l5);
    }
  }

  method GetM10(data: Series) returns (r: Result<real>)
    ensures r == M10(data)
  {
    if |data| == 0 {
      return Err(EmptySeries);
    }
    var begTimestamp, endTimestamp := data[0].t, data[|data| - 1].t;
    if begTimestamp + DAY < endTimestamp {
      r := AggregateByDay(data, M10_WINDOW, Highest);
    } else {
      var m10 := FindShortPeriod(data, M10_WINDOW, Highest);
      r := AsReal(m10);
    }
  }

  /** A day's midpoint is half a window inside the whole record. */
  lemma DayMidpointBounds(data: Series, width: nat, dir: Direction, c: Interval)
    requires Increasing(data) && DayExtremum(data, width, dir, c).Ok?
    ensures |data| > 0
    ensures First(data) + width / 2 <= DayExtremum(data, width, dir, c).value <= Last(data) - width / 2
  {
    var day := Slice(data, c.lo, c.hi);
    ShortPeriodFails(day, width, dir);
    SliceIncreasing(data, c.lo, c.hi);
    ShortPeriodBounds(day, width, dir);
    SliceWithin(data, c.lo, c.hi);
    WithinSpan(data, day[0]);
    WithinSpan(data, day[|day| - 1]);
  }

  /** Every per-day midpoint, and so their mean, is half a window inside the whole record. */
  lemma DayAverageBounds(data: Series, width: nat, dir: Direction)
    requires Increasing(data) && |data| > 0 && First(data) < Last(data)
    requires DayAverage(data, width, dir).Ok?
    ensures (First(data) + width / 2) as real <= DayAverage(data, width, dir).value
    ensures DayAverage(data, width, dir).value <= (Last(data) - width / 2) as real
  {
    var cs := Cuts(ToMidnight, First(data), Last(data));
    var rs := DayResults(data, width, dir, cs);
    var ys := Gather(rs).value;
    var lo, hi := First(data) + width / 2, Last(data) - width / 2;
    forall i | 0 <= i < |ys|
      ensures lo as real <= ys[i] <= hi as real
    {
      DayResultsAt(data, width, dir, cs, i);
      DayMidpointBounds(data, width, dir, cs[i]);
    }
    MeanBounds(ys, lo as real, hi as real);
  }

  /** The multi-day path fails exactly when some day has no window, and then with that error. */
  lemma DayAverageFails(data: Series, width: nat, dir: Direction)
    requires |data| > 0 && First(data) < Last(data)
    ensures DayAverage(data, width, dir).Err? <==>
      exists c :: c in Cuts(ToMidnight, First(data), Last(data)) && DayExtremum(data, width, dir, c).Err?
    ensures DayAverage(data, width, dir).Err? ==> DayAverage(data, width, dir).error == NoWindow
  {
    var cs := Cuts(ToMidnight, First(data), Last(data));
    var rs := DayResults(data, width, dir, cs);
    GatherFails(rs);
    if Gather(rs).Err? {
      var i :| 0 <= i < |rs| && rs[i] == Err(Gather(rs).error);
      DayResultsAt(data, width, dir, cs, i);
      ShortPeriodFails(Slice(data, cs[i].lo, cs[i].hi), width, dir);
    }
    if exists c :: c in cs && DayExtremum(data, width, dir, c).Err? {
      var c :| c in cs && DayExtremum(data, width, dir, c).Err?;
      var i :| 0 <= i < |cs| && cs[i] == c;
      DayResultsAt(data, width, dir, cs, i);
    }
  }

  /** `get_L5` returns its failure value exactly when the record spans less than five hours. */
  lemma L5TooShort(data: Series)
    ensures L5(data) == Err(TooShort) <==> data != [] && Last(data) - First(data) < L5_WINDOW
  {
    if data != [] && Last(data) - First(data) >= L5_WINDOW {
      if First(data) + DAY < Last(data) {
        var cs := Cuts(ToMidnight, First(data), Last(data));
        var rs := DayResults(data, L5_WINDOW, Lowest, cs);
        GatherFails(rs);
        if Gather(rs).Err? {
          var i :| 0 <= i < |rs| && rs[i] == Err(Gather(rs).error);
          DayResultsAt(data, L5_WINDOW, Lowest, cs, i);
          ShortPeriodFails(Slice(data, cs[i].lo, cs[i].hi), L5_WINDOW, Lowest);
        }
      } else {
        ShortPeriodFails(data, L5_WINDOW, Lowest);
      }
    }
  }

  /** A record of at most one day that passes the span guard always has an L5. */
  lemma L5SingleDayDefined(data: Series)
    requires data != [] && L5_WINDOW <= Last(data) - First(data)
    requires Last(data) <= First(data) + DAY
    ensures L5(data).Ok?
  {
    ShortPeriodFails(data, L5_WINDOW, Lowest);
  }

  /** L5 lies between 2.5 hours after the first sample and 2.5 hours before the last one. */
  lemma L5Bounds(data: Series)
    requires Increasing(data) && L5(data).Ok?
    ensures (First(data) + L5_WINDOW / 2) as real <= L5(data).value
    ensures L5(data).value <= (Last(data) - L5_WINDOW / 2) as real
  {
    if First(data) + DAY < Last(data) {
      DayAverageBounds(data, L5_WINDOW, Lowest);
    } else {
      ShortPeriodBounds(data, L5_WINDOW, Lowest);
    }
  }

  /** M10 lies between 5 hours after the first sample and 5 hours before the last one. */
  lemma M10Bounds(data: Series)
    requires Increasing(data) && M10(data).Ok?
    ensures (First(data) + M10_WINDOW / 2) as real <= M10(data).value
    ensures M10(data).value <= (Last(data) - M10_WINDOW / 2) as real
  {
    if First(data) + DAY < Last(data) {
      DayAverageBounds(data, M10_WINDOW, Highest);
    } else {
      ShortPeriodBounds(data, M10_WINDOW, Highest);
    }
  }

  /** Without a span guard, a record shorter than ten hours makes `get_M10` fail in `max`. */
  lemma M10ShortSpanFails(data: Series)
    requires data != [] && Last(data) - First(data) < M10_WINDOW
    ensures M10(data) == Err(NoWindow)
  {
    ShortPeriodFails(data, M10_WINDOW, Highest);
  }

  /** Per-day midpoints a whole day apart gather into an arithmetic progression with that mean. */
  lemma GatherDailyTime(rs: seq<Result<int>>, y0: int, n: int)
    requires n == |rs| > 0
    requires forall k :: 0 <= k < |rs| ==> rs[k] == Ok(y0 + k * DAY)
    ensures Gather(rs).Ok? && |Gather(rs).value| == n
    ensures Mean(Gather(rs).value) == y0 as real + (n - 1) as real * DAY as real / 2.0
  {
    GatherFails(rs);
    var ys := Gather(rs).value;
    forall k | 0 <= k < |ys| ensures ys[k] == y0 as real + (k as real) * (DAY as real) {
      assert ys[k] == (y0 + k * DAY) as real;
    }
    MeanOfProgression(ys, y0 as real, DAY as real, n);
  }

  /**
   * Averaging the per-day midpoints as numbers: if day `k`'s midpoint is
   * `y0` plus `k` days, the result is `y0` plus half a day for every day
   * after the first. A recurring time of day `y0` over an even number of
   * days thus comes out twelve hours away from it.
   */
  lemma DayAverageOfDailyTime(data: Series, width: nat, dir: Direction, y0: int)
    requires |data| > 0 && First(data) < Last(data)
    requires forall k :: 0 <= k < |Cuts(ToMidnight, First(data), Last(data))| ==>
      DayExtremum(data, width, dir, Cuts(ToMidnight, First(data), Last(data))[k]) == Ok(y0 + k * DAY)
    ensures DayAverage(data, width, dir) ==
      Ok(y0 as real + (|Cuts(ToMidnight, First(data), Last(data))| - 1) as real * DAY as real / 2.0)
  {
    var cs := Cuts(ToMidnight, First(data), Last(data));
    var rs := DayResults(data, width, dir, cs);
    forall k | 0 <= k < |rs| ensures rs[k] == Ok(y0 + k * DAY) {
      DayResultsAt(data, width, dir, cs, k);
      assert DayExtremum(data, width, dir, cs[k]) == Ok(y0 + k * DAY);
    }
    GatherDailyTime(rs, y0, |cs|);
  }
}
