# daylio-parser analytics core in Dafny

This project models the analytics core of daylio-parser, a library that reads a
Daylio mood-diary export and prepares statistics and chart data from it. The
model has three parts.

- **Mood configuration** (`Config`, the `MoodConfig` class). It validates a list
  of `(level, name)` pairs and a five-colour palette. It gives each level its
  half-open band: [1, 1.5) for level 1, [4.5, 5.01) for level 5 and
  [L − 0.5, L + 0.5) otherwise. It keeps a name index in step with the ordered
  list, and a rejected reload leaves the object as it was.
- **Statistics engine** (`Stats`, `Periods`, with `Numeric` for the
  reductions).
  - Per-day averages in first-seen order.
  - Per-activity and overall mean and spread.
  - The rolling mean, padded with NaN at the front.
  - The high- and low-mood period detector. It is a threshold-crossing loop
    that includes the closing day, validates each period before filtering it by
    duration, and closes a period still open at the end.
  - `stability` and `stability_by_month`, which always raise.
- **Chart preparation** (`Plot`).
  - `split_into_bands`: one masked copy of a series per mood.
  - `interpolate`: turns daily averages into a dense, timestamped series with
    `steps` samples per day, `1440 // steps` minutes apart (four minutes at the
    default 360), and appends an extra day to the caller's list.

Modelling choices:
- Dates are day numbers. An entry's time of day (`Parser.Entry`) is in minutes
  since midnight; an interpolated sample's stamp (`Plot.Stamp`) carries an hour
  and a minute.
- NaN is `None` in an `Option<real>`.
- Arithmetic is over exact reals.
- Entries arrive as a plain datatype (`Parser.Entry`).

Each operation that works by updating state is a method with loops. Each is
proved equal to a specification function, and the lemmas state what those
functions guarantee.

- The detector (`Periods.DetectPeriods`) keeps the source's three loop
  variables. It is proved equal to `Periods.Periods`. That function is built
  from an index-by-index scan, and the scan is shown to cut the series exactly
  as the declarative predicate `Periods.Decomposes` describes.
- `Plot.Interpolate` updates a `PointList` object in place. Its nested loops are
  proved to produce the samples of `Plot.Interpolated`.

## Model

| member | source | states |
|---|---|---|
| Config.CheckTuplesPass | daylio_parser/config.py:97-104 | the per-tuple checks pass iff every tuple has two fields with an integer level in 1..5; on failure the error is that of the first bad tuple |
| Config.CheckMoodListSpec | daylio_parser/config.py:95-109 | mood-list validation passes iff every tuple is well formed and the level set is exactly {1..5}; MissingLevels exactly when the tuples are fine but a level is missing or extra; otherwise the first bad tuple's error |
| Config.ValidateMoodList | daylio_parser/config.py:95-109 | the validation loop, which exits at the first bad tuple and then compares level sets, returns exactly the specified outcome |
| Config.ValidatePalette | daylio_parser/config.py:111-114 | the palette passes iff it has exactly five colours, else BadPalette with its size |
| Config.BandsTile | daylio_parser/config.py:75-88 | level 1 starts at 1, level 5 ends at 5.01, each band's upper end is the next level's lower end, and every band is non-empty, so the five bands tile [1, 5.01) |
| Config.LevelOf | daylio_parser/config.py:75-88 | every number in [1, 5.01) lies in the band of exactly one level |
| Config.EndpointGoesUp | daylio_parser/config.py:75-88 | a shared endpoint L − 0.5 belongs to level L, the upper of the two bands |
| Config.MakeMood | daylio_parser/config.py:75-91 | a built mood keeps the tuple's level and name and takes colour palette[level − 1] |
| Config.IndexOfSpec | daylio_parser/config.py:90-93 | the name index has exactly the list's names as keys, and each maps to the last mood carrying that name |
| Config.BuildMoodsWellFormed | daylio_parser/config.py:68-93 | a validated list builds one mood per tuple, in order, with level-derived bands, every level present and one colour per level |
| Config.MoodConfig.LoadMoods | daylio_parser/config.py:68-93 | both validations run before anything changes; on failure moods and index are untouched; on success they are the built moods and their index, and the object is valid |
| Config.MoodConfig.New | daylio_parser/config.py:36-51 | both arguments default to none; a missing or empty list or palette means the default one; the object exists iff loading those passes, and then it is valid and holds the built moods |
| Config.MoodConfig.FromList | daylio_parser/config.py:53-62 | the palette defaults to none; a reload with the default palette when none is given; all or nothing |
| Config.MoodConfig.Get | daylio_parser/config.py:64-66 | found iff some mood has the name, and then it is the last such mood; an unknown name fails with MoodNotFound |
| Config.EffectiveList | daylio_parser/config.py:45-46 | a given non-empty list is used as is; a missing or empty one means the default moods |
| Config.EffectivePalette | daylio_parser/config.py:48-49 | a given non-empty palette is used as is; a missing or empty one means the default palette |
| Config.DefaultMoodsLoad | daylio_parser/config.py:6-20 | the defaults pass validation and build awful, bad, meh, good, rad at levels 1–5 with their bands and palette colours |
| Config.DefaultLookup | daylio_parser/config.py:64-66 | in the default configuration "good" is level 4 with colour #4CA369 and band [3.5, 4.5), and an unknown name is absent |
| Config.RejectedConfigurations | daylio_parser/config.py:95-114 | a 3-field tuple and a 1-field tuple fail arity; a list repeating 4 and lacking 5 fails MissingLevels; level 6 fails BadLevel; a one-colour palette fails BadPalette(1) |
| Config.MalformedNamesRejected | daylio_parser/config.py:97-104 | (1, 2, 3) fails arity and ('x', 5) fails its level, so lists with non-text second fields are rejected, not excluded |
| Numeric.MeanBounds | daylio_parser/stats.py:68 | the mean of values in [lo, hi] lies in [lo, hi] |
| Numeric.VarianceNonNegative | daylio_parser/stats.py:68 | the population variance behind np.std is never negative |
| Numeric.VarianceZeroIff | daylio_parser/stats.py:68 | the variance is zero iff all values are equal |
| Numeric.ConstantSummary | daylio_parser/stats.py:68 | a constant sequence has that constant as mean and variance zero |
| Numeric.RoundHalfEven | daylio_parser/stats.py:85 | the result is an integer within 0.5 of the input |
| Numeric.Round2 | daylio_parser/stats.py:85 | round(2) moves a value by at most 0.005 |
| Numeric.Round2Within | daylio_parser/stats.py:85 | rounding keeps a value inside a band with whole-number ends |
| Stats.DaysSeenMembership | daylio_parser/stats.py:38-44 | a day is reported iff some entry was made on it, iff it has levels to average |
| Stats.DaysSeenDistinct | daylio_parser/stats.py:38-44 | no day is reported twice |
| Stats.DaysSeenOrder | daylio_parser/stats.py:38-49 | days come in order of first appearance |
| Stats.DailyAveragesSpec | daylio_parser/stats.py:38-51 | each day with entries appears exactly once, and its value is the sum of that day's levels over their number |
| Stats.DailyAveragesWithin | daylio_parser/stats.py:38-51 | with every level in lo..hi, every daily average is in lo..hi |
| Stats.AverageMoods | daylio_parser/stats.py:33-51 | the setdefault/append grouping loop returns exactly the specified daily averages |
| Stats.ActivityLevelsComplete | daylio_parser/stats.py:60-63 | every entry listing the activity contributes its level to the activity's collected levels |
| Stats.ActivityLevelsSpec | daylio_parser/stats.py:58-63 | an activity is collected iff some entry lists it, iff it has levels; each collected level is the level of an entry listing it |
| Stats.SingleLevelActivity | daylio_parser/stats.py:65-68 | an activity whose entries all share one level reports that level as mean and spread zero |
| Stats.ActivityVarianceNonNegative | daylio_parser/stats.py:65-68 | the spread reported for an activity is never negative |
| Stats.CollectActivities | daylio_parser/stats.py:61-63 | one entry's inner loop appends its level under each listed activity, once per listing |
| Stats.ActivityMoods | daylio_parser/stats.py:53-70 | the two loops return exactly the specified per-activity summaries |
| Stats.OverallStats | daylio_parser/stats.py:72-76 | NaN iff there are no entries; otherwise the variance is non-negative and, with levels 1..5, the mean lies in [1, 5] |
| Stats.SmoothedSpec | daylio_parser/stats.py:78-95 | the rolling mean keeps every date and the length; exactly the first N − 1 values are NaN; with daily values in lo..hi the rest stay in lo..hi |
| Stats.WindowMean | daylio_parser/stats.py:84 | one convolution output is the mean of its window |
| Stats.Convolve | daylio_parser/stats.py:84 | "valid" convolution with ones(N)/N gives |values| − N + 1 outputs, each the mean of its window |
| Stats.Smooth | daylio_parser/stats.py:80-95 | rounding, padding and overwriting the value column in place give the specified smoothed series |
| Stats.RollingMean | daylio_parser/stats.py:78-95 | with the window N defaulting to 5: no days, then N ≤ 0, then fewer days than N raise, in that order; otherwise the result is the smoothed series of the daily averages |
| Stats.RollingMeanExample | daylio_parser/stats.py:78-95 | daily averages 2.0, 4.3, 4.6, 5.0, 5.0 over a 5-day window give four NaNs, then 4.18 |
| Stats.Stability | daylio_parser/stats.py:192-194 | always fails with NotImplemented |
| Stats.StabilityByMonth | daylio_parser/stats.py:201-203 | always fails with NotImplemented |
| Periods.OpensClosesExclusive | daylio_parser/stats.py:107-113 | no value both opens and closes a period, and NaN does neither |
| Periods.Known | daylio_parser/stats.py:119 | a window has a numeric mean iff none of its values is NaN |
| Periods.MakePeriod | daylio_parser/stats.py:13-19 | constructing a MoodPeriod succeeds iff the duration is positive and the mean is a number in [1, 5]; the period carries the start, end and their difference; failure names the span |
| Periods.BuildPeriods | daylio_parser/stats.py:115-123 | every period returned is valid and at least the minimum duration long; there are no more periods than spans |
| Periods.BuildPeriodsKeeps | daylio_parser/stats.py:115-123 | on success, the period of every span lasting at least the minimum duration is returned |
| Periods.BuildPeriodsSucceeds | daylio_parser/stats.py:115-140 | the search succeeds iff every span's MoodPeriod is valid |
| Periods.ScanInvariantHolds | daylio_parser/stats.py:106-127 | after every prefix the scan's closed spans are ordered, each opens on an opening value and ends on the first closing value, and every opening value is covered |
| Periods.SpansDecompose | daylio_parser/stats.py:106-140 | the spans found are exactly the periods of the series: each starts on an opening value, nothing inside closes it, it ends on a closing value or on the last day, spans are ordered and disjoint, and every opening value lies in one |
| Periods.ClosedGrows | daylio_parser/stats.py:106-127 | later scan states only add closed spans |
| Periods.DetectPeriods | daylio_parser/stats.py:102-142 | the loop with start_date, moods and dates, its early abort and its for-else tail returns exactly the specified periods or the first validation error |
| Periods.FindHighPeriods | daylio_parser/stats.py:97-142 | with threshold 4 and minimum duration 4 by default: fewer than five days abort with the rolling mean's error; otherwise the period search above the threshold on the five-day rolling mean |
| Periods.FindLowPeriods | daylio_parser/stats.py:144-190 | with threshold 3 and minimum duration 5 by default: fewer than five days abort with the rolling mean's error; otherwise the period search below the threshold on the five-day rolling mean |
| Periods.NoOpeningNoPeriods | daylio_parser/stats.py:106-142 | without a value past the threshold the result is an empty list, never an error |
| Periods.LastDayOpeningFails | daylio_parser/stats.py:128-137 | a period that opens on the last day has duration 0 and makes the search fail |
| Periods.ChronologicalPeriod | daylio_parser/stats.py:13-19 | on a chronological series of moods a span's MoodPeriod is valid iff it covers more than one day |
| Periods.FailsIffOpensOnLastDay | daylio_parser/stats.py:106-142 | on a chronological series of moods the search fails iff some period opens on the last day |
| Periods.HighPeriodExample | daylio_parser/stats.py:97-142 | NaN, 4.5, 4.2, 3.8 above 4 give one period from day 2 to day 4 with mean 12.5/3; a 4-day minimum drops it |
| Plot.Band | daylio_parser/plot.py:31-36 | a band keeps the length and every value; a position is masked iff it holds a number outside [lower, upper); NaN is never masked |
| Plot.SplitIntoBands | daylio_parser/plot.py:26-40 | the loop over moods returns the specified map of bands |
| Plot.BandsKeys | daylio_parser/plot.py:29-38 | the keys are exactly the configured names, and each band is that of the last mood carrying the name |
| Plot.UnmaskedMeansLevel | daylio_parser/plot.py:31-36 | in a loaded configuration a number visible in a band lies in [1, 5.01) and the band's level owns it; a number outside [1, 5.01) is masked everywhere |
| Plot.EndpointVisibleAbove | daylio_parser/plot.py:33-36 | a number on a shared endpoint L − 0.5 is visible only in bands of level L |
| Plot.InRangeVisible | daylio_parser/plot.py:31-38 | with distinct names, every number in [1, 5.01) is visible in some band |
| Plot.ExactlyOneBand | daylio_parser/plot.py:31-38 | with distinct names and levels, at most one band shows a number |
| Plot.DefaultMoodsDistinct | daylio_parser/config.py:6-12 | the default moods are well formed with distinct names and levels, so the split partitions [1, 5.01) |
| Plot.Extended | daylio_parser/plot.py:58-62 | the appended point is dated one day after the last and carries its value; the earlier points are kept |
| Plot.AppendDay | daylio_parser/plot.py:84-101 | the inner loop appends exactly the day's `steps` samples to both lists |
| Plot.Rejected | daylio_parser/plot.py:47-59 | interpolate goes on to the points iff there are at most 1440 steps, not zero, and a last point; too many steps is reported first |
| Plot.Interpolate | daylio_parser/plot.py:42-103 | with 360 steps by default: more than 1440 steps, then zero steps, then an empty list fail without changing the list; otherwise the caller's list gains the extra day and the result lists the samples of every point |
| Plot.AsPoints | daylio_parser/plot.py:44-45 | the daily averages become points with known values on the same days |
| Plot.InterpolateAverages | daylio_parser/plot.py:42-103 | with no list given, and 360 steps by default, interpolate works on the daily averages |
| Plot.StampBounds | daylio_parser/plot.py:94-97 | step n of a day is a valid clock time exactly n × (1440 // steps) minutes after midnight |
| Plot.StampsIncrease | daylio_parser/plot.py:88-98 | the sample times of a day strictly increase |
| Plot.DayBlockLine | daylio_parser/plot.py:84-101 | a day followed by a known day gives `steps` samples: midnight carries the day's value, and sample n is cur + (next − cur)·n/steps, between the two values |
| Plot.DayBlockBeforeNaN | daylio_parser/plot.py:84-90 | a day followed by a NaN day gives `steps` NaN samples |
| Plot.SamplesPrefix | daylio_parser/plot.py:66-101 | the samples of fewer points are a prefix of those of more |
| Plot.SamplesCount | daylio_parser/plot.py:66-101 | with every value known, each point before the last gives `steps` samples |
| Plot.SamplesTotal | daylio_parser/plot.py:72-82 | with every value known, the last point adds one midnight sample |
| Plot.InterpolatedShape | daylio_parser/plot.py:56-101 | n known days give steps·n + 1 samples, and the last real day gets a full, flat day at its own value |
| Plot.DocumentedDay | daylio_parser/plot.py:84-101 | a day at 2.0 followed by 4.3 with the default 360 steps starts at 00:00 with 2.0 and ends at 23:56 with 2 + 359·2.3/360 |
| Plot.ContributionOrdered | daylio_parser/plot.py:66-101 | one point's samples all fall on its day, in increasing time |
| Plot.SamplesChronological | daylio_parser/plot.py:66-101 | with strictly increasing days, the sample times strictly increase |
| Plot.InterpolatedChronological | daylio_parser/plot.py:56-103 | the interpolated series of a list with increasing days is chronological |
| Plot.InterpolatedArray | daylio_parser/plot.py:61-64 | the array branch as written fails exactly as the list branch does |
| Plot.ArrayDropsLastDay | daylio_parser/plot.py:61-64 | on the array branch the last day gets only its midnight sample: `steps` fewer samples than the list branch |

## Left out

- Reading the export (CSV decoding, date parsing, the 12h/24h fallback) is I/O and not part of this model; entries arrive as `Parser.Entry`, with the mood's level in place of the mood object.
- Chart rendering with matplotlib is not part of this model; only data preparation is.
- Floating point: all arithmetic is over exact reals, and round(2) is round-half-even on the exact value rather than on its binary approximation.
- Stats.OverallStats: reports the population variance instead of np.std, because Dafny's reals have no square root; the standard deviation is its square root, and zero and non-negativity carry over.
- Stats.ActivityMoods: reports the population variance instead of np.std, for the same reason.
- Stats.RollingMean: the three failures are modelled by the first exception raised, not by its Python type or message (IndexError for no days, ValueError otherwise).
- Periods.LastDayOpeningFails: states only that the search fails, because an earlier invalid period's error is reported first.
- Plot.InRangeVisible: holds only with distinct mood names; with a repeated name the later mood replaces the earlier one's band.
- Plot.ExactlyOneBand: holds only with distinct names and levels; a configuration may repeat a level, and then two bands show the same numbers.
- Config.MoodConfig.LoadMoods: requires a list that passes validation to have text names, the declared tuple type; a malformed list of any kind is modelled and rejected, but building moods with non-text names is not modelled.
- Config.MoodConfig.New: requires a given list that passes validation to have text names, for the same reason.
- Config.MoodConfig.FromList: requires a list that passes validation to have text names, for the same reason.
- The `Stats` and `PlotData` classes only hold their inputs after construction, so their operations are modelled as functions and methods over the entries and the configuration.
- The validation machinery of pydantic is modelled by its effect: a MoodPeriod with a non-positive duration or a mean that is NaN or outside [1, 5] is rejected.
- The order of the keys of the dictionary split_into_bands builds (dict.fromkeys) is not modelled; maps are unordered.
- Plot.Interpolate: a negative step count gives no day blocks and only the final midnight sample, as range(0, steps) is empty; floor division by a negative count is not modelled, as its result is unused.
- The unreachable code after the raises in stability and stability_by_month is not modelled.

## Findings

| source | as written | input that shows it | evidently intended | confidence | as-written member | corrected member |
|---|---|---|---|---|---|---|
| daylio_parser/plot.py:61-64 | for a numpy array, `np.append(avg_moods, new_point)` returns a new array that is discarded, so no day is added | an array holding one known day with 360 steps yields one sample instead of 361 | append the extra day on both branches, so that the last day is drawn in full | high, not executed | Plot.ArrayDropsLastDay | Plot.InterpolatedShape |
