# Circadian activity features: L5, M10 and minute-by-minute VMC

This project models, in Dafny, the windowed time-series aggregation at the
heart of a feature calculator for wearable-sensor recordings, and proves
properties of it.

- **L5 / M10** (`codigos/L5_M10.py`). L5 is the midpoint of the five hours
  with the lowest mean activity and M10 the midpoint of the ten hours with the
  highest mean. A window is anchored at every sample timestamp `t` and covers
  the closed interval `[t, t + D]`. The scan stops at the first anchor whose
  window would end after the last sample. Each window's mean is keyed by its
  midpoint `t + D/2`. The first key with the lowest (L5) or highest (M10) mean
  wins. A record longer than one day is cut at local midnights, each day is
  scanned on its own, and the per-day midpoints are averaged as numbers. L5
  first refuses records shorter than five hours; M10 has no such guard.
- **VMC series** (`codigos/feature_calculator.py`):
  - `get_VMC` gives one minute bucket a key and a value. The key is the mean
    sample timestamp, or the bucket's start when the bucket is empty. The value
    is the mean absolute deviation of the samples, or nothing when the bucket
    is empty.
  - The minute loop walks clock minutes up to the last sample of a fetched
    chunk and updates a dict.
  - `get_VMC_serie` walks the selected days. It cuts each day into hours, up to
    the next midnight or the end of the record, and fetches each hour.
  - `get_VMC_serie_by_date_range` runs the minute loop over one fetch; it
    raises when the range holds no sample.
  - `get_days_by_weekday_weekend` lists weekday dates.
  - The limit-string normalisation of `get_acc_data` and `get_HR_data`.

Conventions of the model:

- Timestamps are integers in microseconds of local wall-clock time.
- A calendar date is the timestamp of its midnight.
- Values are exact reals.
- A series is a sequence of `(t, v)` samples. The lemmas that need it assume
  strictly increasing timestamps (`Increasing`).
- pandas label slicing `s[a:b]` is `Slice(s, a, b)`, which keeps both ends. So
  two adjacent day chunks or minute buckets both contain a sample that lies
  exactly on their shared boundary.
- The database is replaced by the participant's whole magnitude record `rec`.
  A query for `(lo, hi)` returns the samples strictly inside the interval, as
  the query's `>`/`<` bounds do (`codigos/server_handler.py:74-75`). When the
  query finds nothing, `get_acc_data` returns its single placeholder row at
  `lo`.

A quirk the model keeps: the weekday list holds `date_start` plus a whole
number of days, so every weekday after the first starts at `date_start`'s time
of day, while weekend dates start at midnight. `get_VMC_serie` therefore
leaves out the span from midnight to that time on every weekday
(`FeatureCalculator.WeekdaysMembers` states the list exactly).

Modules:

- `TimeSeries`: samples, slicing, sums and means.
- `Calendar`: flooring to a unit, next boundaries, and the chunks that the
  cursor loops walk through. One `Cuts` function serves the day, hour and
  minute loops alike.
- `L5M10`: the L5/M10 model.
- `FeatureCalculator`: the VMC series, the weekday list and the limit strings.

Each imperative loop of the source is a method with loop invariants. The method
is proved equal to a recursive specification function, and the lemmas state
the properties of that function.

## Model

| member | source | states |
|---|---|---|
| TimeSeries.SliceWithin | codigos/L5_M10.py:40 | a label slice holds only samples of the series whose timestamps lie in the closed interval [a, b] |
| TimeSeries.SliceKeeps | codigos/L5_M10.py:40 | a label slice keeps every sample whose timestamp lies in [a, b], both ends included |
| TimeSeries.SliceIncreasing | codigos/L5_M10.py:71 | a slice of a series with increasing timestamps again has increasing timestamps |
| TimeSeries.WithinIsSlice | codigos/L5_M10.py:40 | the running in-window count and sum equal the length and the value sum of the label slice |
| TimeSeries.MeanBounds | codigos/L5_M10.py:77 | a mean lies between any lower and upper bound of its terms |
| TimeSeries.MeanOfConstant | codigos/L5_M10.py:77 | the mean of equal terms is that term |
| TimeSeries.MeanOfProgression | codigos/L5_M10.py:77 | the mean of an arithmetic progression is the midpoint of its first and last terms |
| Calendar.FloorTo | codigos/L5_M10.py:66 | `.replace(...)` floors: the result is a whole number of units, at most `t` and less than one unit before it |
| Calendar.DateOf | codigos/feature_calculator.py:86 | `.date()` is a midnight, at most `t` and less than a day before it |
| Calendar.DateOfNextDay | codigos/feature_calculator.py:89 | adding one day to the cursor moves its date exactly one day forward |
| Calendar.DateOfLaterDay | codigos/feature_calculator.py:86-89 | after `k` steps the cursor's date is `k` days after the start date |
| Calendar.Next | codigos/L5_M10.py:66 | the next boundary lies strictly after the cursor: a midnight at most a day later, one hour later, or a whole minute at most a minute later |
| Calendar.Cuts | codigos/L5_M10.py:63-74 | the cursor loop visits no chunk exactly when it starts at or after its end |
| Calendar.CutsShape | codigos/L5_M10.py:63-74 | chunks start at `beg`, are non-empty, end at `min(next boundary, end)`, follow each other without gaps, and the last ends at `end` |
| Calendar.CutsWithin | codigos/L5_M10.py:63-74 | every chunk lies inside [beg, end] |
| Calendar.CutsOrdered | codigos/L5_M10.py:74 | a chunk ends no later than any later chunk starts |
| Calendar.CutsCover | codigos/L5_M10.py:63-74 | every instant of [beg, end) lies in some chunk's [lo, hi) |
| Calendar.CutsWidth | codigos/L5_M10.py:66-69 | a chunk lasts at most one day, one hour or one minute, by grain |
| Calendar.LongSpanHasTwoDays | codigos/L5_M10.py:58 | a record longer than one day is cut into at least two day chunks |
| L5M10.WindowMeanIsSliceMean | codigos/L5_M10.py:40 | each window value is the arithmetic mean of exactly the samples in [t, t + D], and that slice is never empty |
| L5M10.AnchorCountStops | codigos/L5_M10.py:33-38 | every anchor before the stopping point fits; the anchor at the stopping point overflows the last sample |
| L5M10.WindowsAt | codigos/L5_M10.py:33-42 | the k-th recorded window is the one anchored at the k-th sample |
| L5M10.RecordedWindowsFit | codigos/L5_M10.py:33-42 | every recorded window starts at a sample `t` with `t + D <= last` and is keyed `t + D/2` |
| L5M10.LaterAnchorsOverflow | codigos/L5_M10.py:36-38 | in an increasing record every anchor after the stopping point also overflows |
| L5M10.WindowKeysIncreasing | codigos/L5_M10.py:42 | midpoint keys strictly increase, so no dict entry is overwritten |
| L5M10.FirstExtremumChoice | codigos/L5_M10.py:44 | `min`/`max` with `key`: no window beats the chosen one, and it strictly beats every earlier one (the first extremum wins) |
| L5M10.FindShortPeriod | codigos/L5_M10.py:29-45 | the short-period helper's `for`/`break` loop returns the specified scan result (shared by the L5 and M10 helpers) |
| L5M10.ShortPeriodChoice | codigos/L5_M10.py:42-44 | a successful scan returns the midpoint of a recorded window that no window beats and that strictly beats all earlier ones |
| L5M10.ShortPeriodFails | codigos/L5_M10.py:44 | the helper fails, with the empty-dict error, exactly when the record is empty or shorter than one window |
| L5M10.ShortPeriodBounds | codigos/L5_M10.py:42-44 | the selected midpoint lies in [first + D/2, last - D/2] |
| L5M10.Gather | codigos/L5_M10.py:71-72 | on success the per-day list holds every day's midpoint as a number, in order |
| L5M10.GatherFails | codigos/L5_M10.py:71 | a failure carries the error of the first failing day; with no failing day there is no failure |
| L5M10.GatherAbortsEarly | codigos/L5_M10.py:71 | once a day has failed, later days do not change the outcome |
| L5M10.FindDayExtremum | codigos/L5_M10.py:71 | one day's result is the helper applied to the inclusive slice of that day |
| L5M10.AggregateByDay | codigos/L5_M10.py:62-77 | the midnight-to-midnight `while` loop returns the mean of the per-day midpoints, or the first day's error |
| L5M10.DayAverageFails | codigos/L5_M10.py:71 | the multi-day path fails exactly when some day chunk has no window, and then with the empty-dict error |
| L5M10.DayMidpointBounds | codigos/L5_M10.py:71 | a day's midpoint lies half a window inside the whole record |
| L5M10.DayAverageBounds | codigos/L5_M10.py:77 | the mean of the per-day midpoints lies in [first + D/2, last - D/2] |
| L5M10.DayAverageOfDailyTime | codigos/L5_M10.py:77 | averaging epoch values: if day `k`'s midpoint is `y0 + k` days over `n` day chunks, the result is `y0 + (n - 1)/2` days, so a recurring time of day over an even number of days comes out twelve hours away |
| L5M10.GetL5 | codigos/L5_M10.py:47-83 | `get_L5` returns the specified L5: error on an empty record, `False` under five hours, per-day mean over more than a day, otherwise the helper |
| L5M10.GetM10 | codigos/L5_M10.py:113-144 | `get_M10` returns the specified M10: the same shape without the span guard |
| L5M10.L5TooShort | codigos/L5_M10.py:51-54 | `get_L5` returns `False` exactly when the record spans less than five hours |
| L5M10.L5SingleDayDefined | codigos/L5_M10.py:80-81 | a record of at most one day that passes the guard always has an L5 |
| L5M10.L5Bounds | codigos/L5_M10.py:56-83 | L5 lies in [first + 2.5 h, last - 2.5 h] |
| L5M10.M10Bounds | codigos/L5_M10.py:117-144 | M10 lies in [first + 5 h, last - 5 h] |
| L5M10.M10ShortSpanFails | codigos/L5_M10.py:113-119 | without a guard, a record shorter than ten hours makes `get_M10` fail in `max` |
| FeatureCalculator.Vmc | codigos/feature_calculator.py:179-204 | the value is absent exactly when the bucket is empty, and an empty bucket is keyed by `first_timestamp` |
| FeatureCalculator.VmcNonNegative | codigos/feature_calculator.py:190 | the mean absolute deviation is never negative |
| FeatureCalculator.VmcZeroIffConstant | codigos/feature_calculator.py:190 | the VMC is zero exactly when every sample in the bucket has the same value |
| FeatureCalculator.VmcKeyWithin | codigos/feature_calculator.py:195-203 | the mean-timestamp key lies between the bucket's first and last sample timestamps |
| FeatureCalculator.VmcKeyInBucket | codigos/feature_calculator.py:277 | the entry of the bucket `r[minute:next_minute]` is keyed inside [minute, next_minute] |
| FeatureCalculator.CollectAppend | codigos/feature_calculator.py:280 | updating the dict with two lists in turn is updating it with their concatenation |
| FeatureCalculator.CollectKeys | codigos/feature_calculator.py:280 | `update` only grows the dict: its keys are the old keys plus the entries' keys |
| FeatureCalculator.CollectLastWins | codigos/feature_calculator.py:280 | a key holds the value of its last update |
| FeatureCalculator.CollectUntouched | codigos/feature_calculator.py:280 | a key that no entry carries keeps its old value, or stays absent |
| FeatureCalculator.MinutePlan | codigos/feature_calculator.py:269-282 | buckets start at the cursor and end at the next whole minute clipped to the last sample, strictly increasing and without gaps, the last ending at the last sample; there are none when the cursor starts at or after the last sample |
| FeatureCalculator.CollectMinutes | codigos/feature_calculator.py:269-282 | the minute `while` loop leaves the dict updated with the VMC of every bucket, in order |
| FeatureCalculator.MinuteKeysWithin | codigos/feature_calculator.py:269-282 | every key the minute loop adds lies between its start and the last sample |
| FeatureCalculator.Fetch | codigos/feature_calculator.py:134-141 | the fetched chunk always has at least one row |
| FeatureCalculator.FetchWithin | codigos/feature_calculator.py:154-163 | a fetched chunk starts at or after its query's start and, except for the placeholder row, ends before the query's end; an empty query makes the minute loop add nothing |
| FeatureCalculator.HourKeysWithin | codigos/feature_calculator.py:263-282 | every key an hour chunk adds lies in [hour_beg, hour_end) |
| FeatureCalculator.DayPlan | codigos/feature_calculator.py:243-257 | `day_end` is the earlier of the next midnight after `day_beg` and `date_end`; the hour chunks start at `day_beg`, are at most one hour long, follow each other without gaps, and end at `day_end` |
| FeatureCalculator.CollectHours | codigos/feature_calculator.py:250-285 | the hour `while` loop fetches every hour chunk and runs the minute loop on it, in order |
| FeatureCalculator.DaysByWeekdayWeekend | codigos/feature_calculator.py:83-93 | `weekends` is Saturdays followed by Sundays; `weekdays` is the list the date cursor builds |
| FeatureCalculator.WeekdaysMembers | codigos/feature_calculator.py:85-89 | a timestamp is listed exactly when it is `start + k` days, its date is before the end date, and that date is not a weekend date |
| FeatureCalculator.WeekdaysListOnlyKeptDays | codigos/feature_calculator.py:85-89 | every listed timestamp is a whole number of days after the start, on a kept date |
| FeatureCalculator.WeekdaysListKeptDay | codigos/feature_calculator.py:85-89 | every kept date before the end date is listed |
| FeatureCalculator.WeekdaysAscending | codigos/feature_calculator.py:85-89 | the weekday list is strictly ascending and never before the start |
| FeatureCalculator.CollectDays | codigos/feature_calculator.py:237-285 | the `for day_beg in days` loop collects every hour of every selected day, in order |
| FeatureCalculator.VmcSerieOfParticipant | codigos/feature_calculator.py:206-290 | `get_VMC_serie` returns nothing when no day is selected, and otherwise the dict of every minute VMC of the selected days |
| FeatureCalculator.NoDaySelected | codigos/feature_calculator.py:219-226 | with neither weekdays nor weekends selected there is no result |
| FeatureCalculator.VmcSerieNone | codigos/feature_calculator.py:219-226 | there is no result exactly when every selected list is empty |
| FeatureCalculator.VmcSerieByDateRange | codigos/feature_calculator.py:292-329 | `get_VMC_serie_by_date_range` fails when the range holds no sample (the placeholder row is labelled by the start string, and the loop's comparison with it raises); otherwise it is the minute loop over one fetch of the whole range |
| FeatureCalculator.DateRangeFails | codigos/feature_calculator.py:308-313 | the date-range series fails exactly when no sample lies strictly inside the range |
| FeatureCalculator.DateRangeNonEmpty | codigos/feature_calculator.py:313-324 | a range that holds a sample yields at least one minute entry |
| FeatureCalculator.DateRangeKeysWithin | codigos/feature_calculator.py:308-324 | every key of the date-range series lies in [beg, end) |
| FeatureCalculator.AccLimitStrings | codigos/feature_calculator.py:109-125 | both quoted limits end up the same length; each original is a prefix of its result after the opening quote; only the shorter one gets the longer one's tail |
| FeatureCalculator.HrLimitStrings | codigos/feature_calculator.py:338-342 | both limits are cut to the shorter length and quoted; each result is a prefix of its original; the shorter one is unchanged |

## Left out

- Time zones, daylight-saving changes and the neo4j/pandas timestamp
  conversions, including the string round trip of the VMC key. Timestamps are
  plain local integers, and midnight is `t - t % day`.
- IEEE floating point and NaN. Means are exact reals.
  - `FeatureCalculator.Vmc`: the key is the exact real mean of the timestamps,
    not rounded to the timestamp resolution.
  - `L5M10.AggregateByDay`: the mean of the per-day midpoints is an exact real,
    not a timestamp rounded to nanoseconds.
- `get_r`, a floating-point square root. The model takes the magnitude record
  as its input.
- The placeholder row of `get_acc_data` holds NaN. In `get_VMC_serie` it is
  labelled by `hour_beg`, the start of the minute loop, so the loop never runs
  on it; the model gives it the value 0, which no result can observe. In
  `get_VMC_serie_by_date_range` it is labelled by the start string, and the
  model stands for the resulting `TypeError` by `None`.
- `FeatureCalculator.Fetch`: the database query (`codigos/server_handler.py`),
  its exception path and the three-column join are replaced by filtering the
  participant's record. The exception path returns the same placeholder as an
  empty answer.
- `str()` of a timestamp. The limit-string functions take the printed strings
  as inputs. `strptime` of the date-range start is likewise taken as an
  integer.
- `get_participants_dates`, `response2dataframe`, `get_HR_serie`, `get_BMI`
  and the other query and plumbing code: database I/O with no logic of its
  own to model.
- The per-participant loop of `get_days_by_weekday_weekend` over
  `dates.index.values`, and the dict `participants_days` it fills: the model
  computes one participant's two lists from that participant's start, end,
  Saturdays and Sundays; the other participants are independent of them.
- The default arguments `on_weekday=False, on_weekend=True` of
  `get_VMC_serie`: the model takes both flags as explicit parameters.
- Weekend lists are taken to hold calendar dates (midnights), compared with
  `current.date()`. The element type the database returns is not part of this
  model.
- `FeatureCalculator.CollectMinutes`, `CollectHours`, `CollectDays`: the
  result dict is a Dafny `map`, which does not keep the insertion order that
  `pd.Series(vmc_serie)` preserves. Keys and values are modelled; order is
  not.
- The `print` warnings, and the conversion of the final dict into a float
  Series.
