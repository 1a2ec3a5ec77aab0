/**
 * Wall-clock arithmetic on local timestamps in microseconds: flooring to a
 * unit (`.replace(second=0, microsecond=0)` and friends), the next boundary
 * after a cursor, and the consecutive chunks a cursor loop walks through.
 */
module Calendar {

  const SECOND: int := 1_000_000
  const MINUTE: int := 60 * SECOND
  const HOUR: int := 60 * MINUTE
  const DAY: int := 24 * HOUR

  function Min(a: int, b: int): int {
    if a <= b then a else b
  }

  /** `t` with every field below `unit` set to zero: the last multiple of `unit` at or before `t`. */
  function FloorTo(t: int, unit: int): (f: int)
    requires unit > 0
    ensures f == (t / unit) * unit
    ensures f <= t < f + unit
  {
    t - t % unit
  }

  /** The calendar date of `t`, represented by the timestamp of its local midnight. */
  function DateOf(t: int): (d: int)
    ensures d % DAY == 0 && d <= t < d + DAY
  {
    FloorTo(t, DAY)
  }

  /** Moving one day forward moves the date one day forward. */
  lemma DateOfNextDay(t: int)
    ensures DateOf(t + DAY) == DateOf(t) + DAY
  {
  }

  /** The same time of day, `k` days later. */
  function CalendarDay(start: int, k: nat): int {
    start + k * DAY
  }

  /** Moving `k` days forward moves the date `k` days forward. */
  lemma {:induction false} DateOfLaterDay(start: int, k: nat)
    ensures DateOf(CalendarDay(start, k)) == DateOf(start) + k * DAY
  {
    if k > 0 {
      DateOfLaterDay(start, k - 1);
      DateOfNextDay(CalendarDay(start, k - 1));
    }
  }

  /**
   * The three cursors of the aggregation loops: to the next local midnight
   * (`(x + 1 day).replace(hour=0, ...)`), one hour on (`x + 1 hour`), and to
   * the next whole minute (`(x + 1 minute).replace(second=0, ...)`).
   */
  datatype Grain = ToMidnight | PlusHour | ToMinute

  function Next(g: Grain, x: int): (y: int)
    ensures x < y
    ensures g == PlusHour ==> y == x + HOUR
    ensures g == ToMidnight ==> y % DAY == 0 && y - DAY <= x
    ensures g == ToMinute ==> y % MINUTE == 0 && y - MINUTE <= x
  {
    match g
    case ToMidnight => FloorTo(x + DAY, DAY)
    case PlusHour => x + HOUR
    case ToMinute => FloorTo(x + MINUTE, MINUTE)
  }

  /** A chunk [lo, hi] visited by a cursor loop. */
  datatype Interval = Interval(lo: int, hi: int)

  /**
   * The chunks of `while cursor < end: hi = min(next(cursor), end); ...;
   * cursor = hi`, started at `beg`.
   */
  function Cuts(g: Grain, beg: int, end: int): (cs: seq<Interval>)
    ensures cs == [] <==> end <= beg
    decreases end - beg
  {
    if end <= beg then []
    else
      var hi := Min(Next(g, beg), end);
      [Interval(beg, hi)] + Cuts(g, hi, end)
  }

  /**
   * The chunks run from `beg` to `end` without gaps, each one non-empty and
   * ending at the next boundary of its grain or at `end`.
   */
  lemma {:induction false} CutsShape(g: Grain, beg: int, end: int)
    ensures var cs := Cuts(g, beg, end);
      && (cs != [] ==> cs[0].lo == beg && cs[|cs| - 1].hi == end)
      && (forall i :: 0 <= i < |cs| ==> cs[i].lo < cs[i].hi == Min(Next(g, cs[i].lo), end))
      && (forall i :: 0 <= i < |cs| - 1 ==> cs[i].hi == cs[i + 1].lo)
    decreases end - beg
  {
    if beg < end {
      var hi := Min(Next(g, beg), end);
      CutsShape(g, hi, end);
      var cs, rest := Cuts(g, beg, end), Cuts(g, hi, end);
      assert cs == [Interval(beg, hi)] + rest;
      assert forall i :: 0 < i < |cs| ==> cs[i] == rest[i - 1];
    }
  }

  /** One step of a cursor loop: the first chunk, then the chunks from its end. */
  lemma CutsStep(g: Grain, beg: int, end: int)
    requires beg < end
    ensures Cuts(g, beg, end) == [Interval(beg, Min(Next(g, beg), end))] + Cuts(g, Min(Next(g, beg), end), end)
  {
  }

  /** A cursor loop that has visited `done` and stands at `beg` moves past one more chunk. */
  lemma CutsAdvance(g: Grain, done: seq<Interval>, cs: seq<Interval>, beg: int, end: int)
    requires beg < end && done + Cuts(g, beg, end) == cs
    ensures (done + [Interval(beg, Min(Next(g, beg), end))]) + Cuts(g, Min(Next(g, beg), end), end) == cs
  {
    var hi := Min(Next(g, beg), end);
    CutsStep(g, beg, end);
    assert (done + [Interval(beg, hi)]) + Cuts(g, hi, end) == done + ([Interval(beg, hi)] + Cuts(g, hi, end));
  }

  /** Every chunk lies inside [beg, end]. */
  lemma {:induction false} CutsWithin(g: Grain, beg: int, end: int, i: nat)
    requires i < |Cuts(g, beg, end)|
    ensures beg <= Cuts(g, beg, end)[i].lo < Cuts(g, beg, end)[i].hi <= end
    decreases end - beg
  {
    var hi := Min(Next(g, beg), end);
    CutsStep(g, beg, end);
    if i > 0 {
      CutsWithin(g, hi, end, i - 1);
    }
  }

  /** Chunks never overlap: each one ends no later than any later one starts. */
  lemma {:induction false} CutsOrdered(g: Grain, beg: int, end: int, i: int, j: int)
    requires 0 <= i < j < |Cuts(g, beg, end)|
    ensures Cuts(g, beg, end)[i].hi <= Cuts(g, beg, end)[j].lo
    decreases j - i
  {
    CutsShape(g, beg, end);
    if i + 1 < j {
      CutsOrdered(g, beg, end, i + 1, j);
    }
  }

  /** Every instant of [beg, end) lies in a chunk's half-open [lo, hi); by CutsOrdered, in only one. */
  lemma {:induction false} CutsCover(g: Grain, beg: int, end: int, x: int) returns (k: nat)
    requires beg <= x < end
    ensures k < |Cuts(g, beg, end)|
    ensures Cuts(g, beg, end)[k].lo <= x < Cuts(g, beg, end)[k].hi
    decreases end - beg
  {
    var hi := Min(Next(g, beg), end);
    var cs := Cuts(g, beg, end);
    var rest := Cuts(g, hi, end);
    assert cs == [Interval(beg, hi)] + rest;
    if x < hi {
      k := 0;
    } else {
      var k' := CutsCover(g, hi, end, x);
      k := k' + 1;
      assert cs[k] == rest[k'];
    }
  }

  /** A chunk lasts at most one unit of its grain. */
  lemma CutsWidth(g: Grain, beg: int, end: int, i: int)
    requires 0 <= i < |Cuts(g, beg, end)|
    ensures Cuts(g, beg, end)[i].hi - Cuts(g, beg, end)[i].lo <=
      match g case ToMidnight => DAY case PlusHour => HOUR case ToMinute => MINUTE
  {
    CutsShape(g, beg, end);
  }

  /** A span longer than a day is cut at least once by a midnight. */
  lemma LongSpanHasTwoDays(beg: int, end: int)
    requires beg + DAY < end
    ensures |Cuts(ToMidnight, beg, end)| >= 2
  {
    var cs := Cuts(ToMidnight, beg, end);
    CutsShape(ToMidnight, beg, end);
    assert cs[0].hi < end;
  }
}
