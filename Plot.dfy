/**
 * Preparing mood data for charts: splitting a series of mood values into one
 * masked band per configured mood, and interpolating daily averages into a
 * dense series of timestamped samples between midnights.
 */
module Plot {
  import opened Wrappers
  import opened Config
  import opened Parser
  import opened Stats

  // ---------------------------------------------------------------------------
  // split_into_bands

  /** One position of a masked array: the value (None for NaN) and whether it is hidden. */
  datatype Cell = Cell(value: Option<real>, masked: bool)

  /**
   * The two masked_where calls of one band: hide values at or above the upper
   * bound, then values below the lower bound. NaN compares false both times.
   */
  function Band(values: seq<Option<real>>, b: Interval): (cells: seq<Cell>)
    ensures |cells| == |values|
    ensures forall i :: 0 <= i < |values| ==> cells[i].value == values[i]
    ensures forall i :: 0 <= i < |values| ==>
              (cells[i].masked <==> values[i].Some? && !InBand(values[i].value, b))
  {
    seq(|values|, i requires 0 <= i < |values| =>
      Cell(values[i], values[i].Some? && (values[i].value >= b.upper || values[i].value < b.lower)))
  }

  /** The result of split_into_bands: each configured name maps to the band of the mood it indexes. */
  function Bands(ms: seq<Mood>, values: seq<Option<real>>): map<string, seq<Cell>>
  {
    var index := IndexOf(ms);
    map name | name in index :: Band(values, index[name].boundaries)
  }

  lemma BandsSnoc(ms: seq<Mood>, k: int, values: seq<Option<real>>)
    requires 0 <= k < |ms|
    ensures Bands(ms[..k + 1], values) == Bands(ms[..k], values)[ms[k].name := Band(values, ms[k].boundaries)]
  {
    assert ms[..k + 1][..k] == ms[..k];
  }

  /**
   * split_into_bands: one masked copy of the values per mood, stored under the
   * mood's name; a later mood with the same name replaces an earlier one.
   */
  method SplitIntoBands(config: MoodConfig, values: seq<Option<real>>) returns (split: map<string, seq<Cell>>)
    ensures split == Bands(config.moods, values)
  {
    var ms := config.moods;
    split := map[];
    for k := 0 to |ms|
      invariant split == Bands(ms[..k], values)
    {
      BandsSnoc(ms, k, values);
      var masked := Band(values, ms[k].boundaries);
      split := split[ms[k].name := masked];
    }
    assert ms[..|ms|] == ms;
  }

  /**
   * The keys of the split are exactly the configured names, and each band is
   * the one of the last mood carrying that name.
   */
  lemma BandsKeys(ms: seq<Mood>, values: seq<Option<real>>, name: string)
    ensures name in Bands(ms, values) <==> exists k :: 0 <= k < |ms| && ms[k].name == name
    ensures name in Bands(ms, values) ==>
              exists k :: 0 <= k < |ms| && ms[k].name == name
                && Bands(ms, values)[name] == Band(values, ms[k].boundaries)
                && forall j :: k < j < |ms| ==> ms[j].name != name
  {
    IndexOfSpec(ms, name);
  }

  /**
   * In a loaded configuration a number left visible by a band lies in [1, 5.01)
   * and the band belongs to the level that owns the number. So two bands that
   * both show a number are bands of the same level, and a number outside
   * [1, 5.01) is hidden in every band.
   */
  lemma UnmaskedMeansLevel(ms: seq<Mood>, values: seq<Option<real>>, name: string, i: int)
    requires WellFormedMoods(ms)
    requires name in Bands(ms, values) && 0 <= i < |values| && values[i].Some?
    requires !Bands(ms, values)[name][i].masked
    ensures 1.0 <= values[i].value < 5.01
    ensures IndexOf(ms)[name].level == LevelOf(values[i].value)
  {
    IndexOfSpec(ms, name);
    var k :| 0 <= k < |ms| && ms[k] == IndexOf(ms)[name] && ms[k].name == name
             && forall j :: k < j < |ms| ==> ms[j].name != name;
    var l := ms[k].level;
    var v := values[i].value;
    assert InBand(v, Boundaries(l));
    BandsTile();
    assert Boundaries(1).lower <= Boundaries(l).lower;
    assert Boundaries(l).upper <= Boundaries(5).upper;
  }

  /** A number on a shared endpoint L - 0.5 is visible only in bands of level L, the higher one. */
  lemma EndpointVisibleAbove(ms: seq<Mood>, values: seq<Option<real>>, name: string, i: int, l: int)
    requires WellFormedMoods(ms) && 2 <= l <= 5
    requires name in Bands(ms, values) && 0 <= i < |values| && values[i] == Some(l as real - 0.5)
    requires !Bands(ms, values)[name][i].masked
    ensures IndexOf(ms)[name].level == l
  {
    UnmaskedMeansLevel(ms, values, name, i);
    EndpointGoesUp(l);
  }

  /** No two mood names coincide. */
  predicate DistinctNames(ms: seq<Mood>)
  {
    forall j, k :: 0 <= j < k < |ms| ==> ms[j].name != ms[k].name
  }

  /** No two moods share a level. */
  predicate DistinctLevels(ms: seq<Mood>)
  {
    forall j, k :: 0 <= j < k < |ms| ==> ms[j].level != ms[k].level
  }

  /** With distinct names, every number in [1, 5.01) is visible in the band of its level's mood. */
  lemma InRangeVisible(ms: seq<Mood>, values: seq<Option<real>>, i: int)
    requires WellFormedMoods(ms) && DistinctNames(ms)
    requires 0 <= i < |values| && values[i].Some? && 1.0 <= values[i].value < 5.01
    ensures exists name :: name in Bands(ms, values) && !Bands(ms, values)[name][i].masked
  {
    var v := values[i].value;
    assert HasLevel(ms, LevelOf(v));
    var k :| 0 <= k < |ms| && ms[k].level == LevelOf(v);
    var name := ms[k].name;
    BandsKeys(ms, values, name);
    var k' :| 0 <= k' < |ms| && ms[k'].name == name
              && Bands(ms, values)[name] == Band(values, ms[k'].boundaries)
              && forall j :: k' < j < |ms| ==> ms[j].name != name;
    assert k' == k;
    assert !Bands(ms, values)[name][i].masked;
  }

  /**
   * With distinct names and distinct levels (the default configuration, for
   * one), a number is visible in exactly one band if it lies in [1, 5.01) and
   * in none otherwise.
   */
  lemma ExactlyOneBand(ms: seq<Mood>, values: seq<Option<real>>, i: int, a: string, b: string)
    requires WellFormedMoods(ms) && DistinctNames(ms) && DistinctLevels(ms)
    requires 0 <= i < |values| && values[i].Some?
    requires a in Bands(ms, values) && !Bands(ms, values)[a][i].masked
    requires b in Bands(ms, values) && !Bands(ms, values)[b][i].masked
    ensures a == b
  {
    UnmaskedMeansLevel(ms, values, a, i);
    UnmaskedMeansLevel(ms, values, b, i);
    IndexOfSpec(ms, a);
    IndexOfSpec(ms, b);
    var ka :| 0 <= ka < |ms| && ms[ka] == IndexOf(ms)[a] && ms[ka].name == a
              && forall j :: ka < j < |ms| ==> ms[j].name != a;
    var kb :| 0 <= kb < |ms| && ms[kb] == IndexOf(ms)[b] && ms[kb].name == b
              && forall j :: kb < j < |ms| ==> ms[j].name != b;
    assert ms[ka].level == ms[kb].level;
    assert ka == kb;
  }

  /** The default moods have distinct names and distinct levels, so each number has exactly one band. */
  lemma DefaultMoodsDistinct()
    ensures MoodListValid(DefaultMoods) && NamesAreText(DefaultMoods)
    ensures var ms := BuildMoods(DefaultMoods, DefaultPalette);
            WellFormedMoods(ms) && DistinctNames(ms) && DistinctLevels(ms)
  {
    DefaultMoodsLoad();
    BuildMoodsWellFormed(DefaultMoods, DefaultPalette);
  }

  // ---------------------------------------------------------------------------
  // interpolate

  /** The largest number of steps per day: one per minute. */
  const MaxSteps: int := 1440

  /** interpolate's default number of steps per day: one sample every four minutes. */
  const DefaultSteps: int := 360

  /** A point in time: a day number and the time of day. */
  datatype Stamp = Stamp(day: int, hour: int, minute: int)

  /** One interpolated sample; None stands for NaN. */
  datatype Sample = Sample(at: Stamp, value: Option<real>)

  /** The two arrays interpolate returns. */
  datatype Series = Series(dates: seq<Stamp>, moods: seq<Option<real>>)

  /** The ValueError for too many steps, the ZeroDivisionError of `1440 // 0`, and the IndexError of an empty list. */
  datatype InterpolateError = TooManySteps | ZeroSteps | EmptySeries

  /** The time of step `n` of a day cut into `steps` pieces of `1440 // steps` minutes. */
  function StampAt(day: int, steps: int, n: int): Stamp
    requires steps >= 1
  {
    var step := MaxSteps / steps;
    Stamp(day, if n == 0 then 0 else (step * n) / 60, if n == 0 then 0 else (step * n) % 60)
  }

  /** Step `n` of the straight line from `cur` to `next`; a NaN next day makes every step NaN. */
  function ValueAt(cur: real, next: Option<real>, steps: int, n: int): Option<real>
    requires steps >= 1
  {
    if next.None? then None else Some(n as real * ((next.value - cur) / steps as real) + cur)
  }

  /** The samples of one day with a known value: `steps` points from midnight towards the next day. */
  function DayBlock(day: int, cur: real, next: Option<real>, steps: int): seq<Sample>
  {
    if steps <= 0 then []
    else seq(steps, n requires 0 <= n < steps => Sample(StampAt(day, steps, n), ValueAt(cur, next, steps, n)))
  }

  /** What point `i` adds: nothing for NaN, a single midnight sample for the last point, a day block otherwise. */
  function Contribution(pts: seq<DayPoint>, steps: int, i: int): seq<Sample>
    requires 0 <= i < |pts|
  {
    if pts[i].value.None? then []
    else if i == |pts| - 1 then [Sample(Stamp(pts[i].day, 0, 0), pts[i].value)]
    else DayBlock(pts[i].day, pts[i].value.value, pts[i + 1].value, steps)
  }

  /** The samples of the first `k` points. */
  function SamplesTo(pts: seq<DayPoint>, steps: int, k: int): seq<Sample>
    requires 0 <= k <= |pts|
  {
    if k == 0 then [] else SamplesTo(pts, steps, k - 1) + Contribution(pts, steps, k - 1)
  }

  /** The list with one more day appended, carrying the last day's value. */
  function Extended(pts: seq<DayPoint>): (ext: seq<DayPoint>)
    requires |pts| > 0
    ensures |ext| == |pts| + 1 && ext[..|pts|] == pts
    ensures ext[|pts|].day == pts[|pts| - 1].day + 1 && ext[|pts|].value == pts[|pts| - 1].value
  {
    pts + [DayPoint(pts[|pts| - 1].day + 1, pts[|pts| - 1].value)]
  }

  /**
   * The checks interpolate makes before it walks the points, in the order they
   * arise: too many steps, then zero steps (the floor division), then an empty
   * series (reading its last point). A negative step count passes them all.
   */
  function Rejected(pts: seq<DayPoint>, steps: int): (e: Option<InterpolateError>)
    ensures e.None? <==> steps <= MaxSteps && steps != 0 && |pts| > 0
    ensures steps > MaxSteps ==> e == Some(TooManySteps)
  {
    if steps > MaxSteps then Some(TooManySteps)
    else if steps == 0 then Some(ZeroSteps)
    else if pts == [] then Some(EmptySeries)
    else None
  }

  /** interpolate on a list: the first rejection, else the samples of the extended list. */
  function Interpolated(pts: seq<DayPoint>, steps: int): Result<seq<Sample>, InterpolateError>
  {
    match Rejected(pts, steps)
    case Some(e) => Failure(e)
    case None => Success(SamplesTo(Extended(pts), steps, |pts| + 1))
  }

  /** The two output arrays list the samples' times and values, position by position. */
  predicate Lists(dates: seq<Stamp>, moods: seq<Option<real>>, samples: seq<Sample>)
  {
    && |dates| == |samples| && |moods| == |samples|
    && forall k :: 0 <= k < |samples| ==> dates[k] == samples[k].at && moods[k] == samples[k].value
  }

  lemma ListsSnoc(dates: seq<Stamp>, moods: seq<Option<real>>, samples: seq<Sample>, s: Sample)
    requires Lists(dates, moods, samples)
    ensures Lists(dates + [s.at], moods + [s.value], samples + [s])
  {
  }

  /** Sample n of a day block, with the arithmetic written as the loop does it. */
  lemma BlockAt(day: int, cur: real, next: Option<real>, steps: int, step: int, n: int)
    requires 0 <= n < steps && step == MaxSteps / steps
    ensures DayBlock(day, cur, next, steps)[n]
            == Sample(Stamp(day, if n == 0 then 0 else (step * n) / 60, if n == 0 then 0 else (step * n) % 60),
                      if next.None? then None else Some(n as real * ((next.value - cur) / steps as real) + cur))
  {
    assert DayBlock(day, cur, next, steps)[n] == Sample(StampAt(day, steps, n), ValueAt(cur, next, steps, n));
    var x := step * n;
    assert StampAt(day, steps, n) == Stamp(day, if n == 0 then 0 else x / 60, if n == 0 then 0 else x % 60);
  }

  /**
   * The inner loop of interpolate: append the `steps` samples of one known day,
   * each `step` minutes after the previous one, to both output lists.
   */
  method AppendDay(dates: seq<Stamp>, moods: seq<Option<real>>, ghost done: seq<Sample>,
                   day: int, cur: real, next: Option<real>, steps: int, step: int)
    returns (dates': seq<Stamp>, moods': seq<Option<real>>)
    requires steps >= 1 ==> step == MaxSteps / steps
    requires Lists(dates, moods, done)
    ensures Lists(dates', moods', done + DayBlock(day, cur, next, steps))
  {
    ghost var block := DayBlock(day, cur, next, steps);
    dates', moods' := dates, moods;
    var n := 0;
    while n < steps
      invariant 0 <= n <= |block|
      invariant Lists(dates', moods', done + block[..n])
    {
      var value := if next.None? then None else Some(n as real * ((next.value - cur) / steps as real) + cur);
      var hour := if n == 0 then 0 else (step * n) / 60;
      var minute := if n == 0 then 0 else (step * n) % 60;
      BlockAt(day, cur, next, steps, step, n);
      assert done + block[..n + 1] == (done + block[..n]) + [block[n]];
      ListsSnoc(dates', moods', done + block[..n], block[n]);
      dates' := dates' + [Stamp(day, hour, minute)];
      moods' := moods' + [value];
      n := n + 1;
    }
    assert block[..n] == block;
  }

  /** A list of daily points that interpolate extends in place. */
  class PointList {
    var items: seq<DayPoint>

    constructor(items0: seq<DayPoint>)
      ensures items == items0
    {
      items := items0;
    }
  }

  /**
   * interpolate: reject more than 1440 steps, then zero steps, then an empty
   * list; otherwise append a copy of the last point one day later to the list
   * itself, and walk the extended list emitting each known day's samples.
   */
  method Interpolate(list: PointList, steps: int := DefaultSteps) returns (r: Result<Series, InterpolateError>)
    modifies list
    ensures Interpolated(old(list.items), steps).Failure? ==>
              r == Failure(Interpolated(old(list.items), steps).error) && list.items == old(list.items)
    ensures Interpolated(old(list.items), steps).Success? ==>
              && list.items == Extended(old(list.items))
              && r.Success? && Lists(r.value.dates, r.value.moods, Interpolated(old(list.items), steps).value)
  {
    if steps > MaxSteps {
      return Failure(TooManySteps);
    }
    if steps == 0 {
      return Failure(ZeroSteps);
    }
    // Floor division in the source; the value is used only when steps > 0.
    var step := if steps > 0 then MaxSteps / steps else 0;
    if |list.items| == 0 {
      return Failure(EmptySeries);
    }
    var last := list.items[|list.items| - 1];
    list.items := list.items + [DayPoint(last.day + 1, last.value)];
    var pts := list.items;
    var dates: seq<Stamp> := [];
    var moods: seq<Option<real>> := [];
    var i := 0;
    while i < |pts|
      invariant 0 <= i <= |pts|
      invariant list.items == pts
      invariant Lists(dates, moods, SamplesTo(pts, steps, i))
    {
      var cur := pts[i];
      if cur.value.None? {
        i := i + 1;
        continue;
      }
      if i + 1 == |pts| {
        ListsSnoc(dates, moods, SamplesTo(pts, steps, i), Sample(Stamp(cur.day, 0, 0), cur.value));
        dates := dates + [Stamp(cur.day, 0, 0)];
        moods := moods + [cur.value];
        i := i + 1;
        break;
      }
      var next := pts[i + 1];
      dates, moods := AppendDay(dates, moods, SamplesTo(pts, steps, i), cur.day, cur.value.value, next.value, steps, step);
      i := i + 1;
    }
    assert i == |pts|;
    return Success(Series(dates, moods));
  }

  /** Daily averages as points: every value is known. */
  function AsPoints(avg: seq<DayValue>): (pts: seq<DayPoint>)
    ensures |pts| == |avg|
    ensures forall i :: 0 <= i < |avg| ==> pts[i].day == avg[i].day && pts[i].value == Some(avg[i].value)
  {
    seq(|avg|, i requires 0 <= i < |avg| => DayPoint(avg[i].day, Some(avg[i].value)))
  }

  /** interpolate with no list given: the daily averages, in a fresh list the caller never sees. */
  method InterpolateAverages(es: seq<Entry>, steps: int := DefaultSteps) returns (r: Result<Series, InterpolateError>)
    ensures Interpolated(AsPoints(DailyAverages(es)), steps).Failure? ==>
              r == Failure(Interpolated(AsPoints(DailyAverages(es)), steps).error)
    ensures Interpolated(AsPoints(DailyAverages(es)), steps).Success? ==>
              r.Success? && Lists(r.value.dates, r.value.moods, Interpolated(AsPoints(DailyAverages(es)), steps).value)
  {
    var avg := AverageMoods(es);
    var list := new PointList(AsPoints(avg));
    r := Interpolate(list, steps);
  }

  // ---------------------------------------------------------------------------
  // Properties of the interpolated series

  /** Minutes since midnight. */
  function MinuteOfDay(t: Stamp): int
  {
    t.hour * 60 + t.minute
  }

  /** Step `n` falls `n * (1440 // steps)` minutes after midnight, on a valid clock time. */
  lemma StampBounds(day: int, steps: int, n: int)
    requires 1 <= steps <= MaxSteps && 0 <= n < steps
    ensures var t := StampAt(day, steps, n);
            && t.day == day && 0 <= t.hour <= 23 && 0 <= t.minute <= 59
            && MinuteOfDay(t) == (MaxSteps / steps) * n
  {
    var step := MaxSteps / steps;
    StepFits(steps, step, n);
    var x := step * n;
    if n != 0 {
      assert x == 60 * (x / 60) + x % 60;
    }
  }

  /** `n` steps of `1440 // steps` minutes stay within the day. */
  lemma StepFits(steps: int, step: int, n: int)
    requires 1 <= steps <= MaxSteps && 0 <= n < steps && step == MaxSteps / steps
    ensures 1 <= step && 0 <= step * n < MaxSteps
  {
    var r := MaxSteps % steps;
    assert steps * step == MaxSteps - r && 0 <= r < steps;
    assert 1 <= step by {
      if step <= 0 {
        MulLeft(steps, step, 0);
      }
    }
    assert step * n <= step * (steps - 1) by { MulLeft(step, n, steps - 1); }
    assert step * (steps - 1) == steps * step - step;
    assert 0 <= step * n by { MulLeft(step, 0, n); }
  }

  lemma MulLeft(a: int, x: int, y: int)
    requires 0 <= a && x <= y
    ensures a * x <= a * y
  {
    assert a * y - a * x == a * (y - x);
  }

  /** Within one day the sample times strictly increase with the step number. */
  lemma StampsIncrease(day: int, steps: int, n: int, m: int)
    requires 1 <= steps <= MaxSteps && 0 <= n < m < steps
    ensures MinuteOfDay(StampAt(day, steps, n)) < MinuteOfDay(StampAt(day, steps, m))
  {
    StampBounds(day, steps, n);
    StampBounds(day, steps, m);
    StepFits(steps, MaxSteps / steps, n);
    MulStrict(MaxSteps / steps, n, m);
  }

  lemma MulStrict(a: int, x: int, y: int)
    requires 1 <= a && x < y
    ensures a * x < a * y
  {
    MulLeft(a, x + 1, y);
    assert a * (x + 1) == a * x + a;
  }

  /**
   * A known day with a known successor yields `steps` samples on that day:
   * its own value at midnight, then values on the straight line towards the
   * next day's value, never leaving the range between the two.
   */
  lemma DayBlockLine(day: int, cur: real, next: real, steps: int, n: int)
    requires 1 <= steps && 0 <= n < steps
    ensures |DayBlock(day, cur, Some(next), steps)| == steps
    ensures DayBlock(day, cur, Some(next), steps)[0] == Sample(Stamp(day, 0, 0), Some(cur))
    ensures var v := DayBlock(day, cur, Some(next), steps)[n].value;
            && v.Some? && v.value == cur + (next - cur) * (n as real / steps as real)
            && (cur <= next ==> cur <= v.value <= next)
            && (next <= cur ==> next <= v.value <= cur)
  {
    assert DayBlock(day, cur, Some(next), steps)[n].value == ValueAt(cur, Some(next), steps, n);
    assert DayBlock(day, cur, Some(next), steps)[0].value == ValueAt(cur, Some(next), steps, 0);
    LineValue(cur, next, steps, n);
  }

  /** Step n of the line from cur to next: the fraction n / steps of the way, between the two. */
  lemma LineValue(cur: real, next: real, steps: int, n: int)
    requires 1 <= steps && 0 <= n < steps
    ensures var v := n as real * ((next - cur) / steps as real) + cur;
            && v == cur + (next - cur) * (n as real / steps as real)
            && (cur <= next ==> cur <= v <= next)
            && (next <= cur ==> next <= v <= cur)
  {
    var f := n as real / steps as real;
    assert 0.0 <= f < 1.0;
    var d := next - cur;
    assert n as real * (d / steps as real) == d * f;
    if cur <= next {
      Scale(d, f);
    } else {
      Scale(-d, f);
      assert (-d) * f == -(d * f);
    }
  }

  lemma Scale(d: real, f: real)
    requires 0.0 <= d && 0.0 <= f <= 1.0
    ensures 0.0 <= d * f <= d
  {
    assert d - d * f == d * (1.0 - f);
  }

  /** A day followed by a NaN day yields `steps` NaN samples. */
  lemma DayBlockBeforeNaN(day: int, cur: real, steps: int, n: int)
    requires 1 <= steps && 0 <= n < steps
    ensures |DayBlock(day, cur, None, steps)| == steps && DayBlock(day, cur, None, steps)[n].value.None?
  {
  }

  /** The samples of fewer points are a prefix of the samples of more points. */
  lemma {:induction false} SamplesPrefix(pts: seq<DayPoint>, steps: int, k: int, m: int)
    requires 0 <= k <= m <= |pts|
    ensures SamplesTo(pts, steps, k) <= SamplesTo(pts, steps, m)
  {
    if k < m {
      SamplesPrefix(pts, steps, k, m - 1);
    }
  }

  /** With every value known, each point before the last gives `steps` samples. */
  lemma {:induction false} SamplesCount(pts: seq<DayPoint>, steps: int, k: int)
    requires 1 <= steps && 0 <= k < |pts|
    requires forall j :: 0 <= j < |pts| ==> pts[j].value.Some?
    ensures |SamplesTo(pts, steps, k)| == steps * k
  {
    if k > 0 {
      SamplesCount(pts, steps, k - 1);
      assert steps * k == steps * (k - 1) + steps;
    }
  }

  /** With every value known, the last point adds a single sample to the others' `steps` each. */
  lemma SamplesTotal(pts: seq<DayPoint>, steps: int)
    requires 1 <= steps && 0 < |pts|
    requires forall j :: 0 <= j < |pts| ==> pts[j].value.Some?
    ensures |SamplesTo(pts, steps, |pts|)| == steps * (|pts| - 1) + 1
  {
    SamplesCount(pts, steps, |pts| - 1);
  }

  /**
   * Interpolating `n` known days gives `steps` samples per day: the appended
   * day adds the final midnight sample, and the last real day gets a full,
   * flat day of samples at its own value.
   */
  lemma InterpolatedShape(pts: seq<DayPoint>, steps: int)
    requires 1 <= steps <= MaxSteps && |pts| > 0
    requires forall j :: 0 <= j < |pts| ==> pts[j].value.Some?
    ensures Interpolated(pts, steps).Success?
    ensures |Interpolated(pts, steps).value| == steps * |pts| + 1
    ensures var last := pts[|pts| - 1];
            Contribution(Extended(pts), steps, |pts| - 1) == DayBlock(last.day, last.value.value, last.value, steps)
    ensures var last := pts[|pts| - 1];
            forall n :: 0 <= n < steps ==> DayBlock(last.day, last.value.value, last.value, steps)[n].value == last.value
  {
    var ext := Extended(pts);
    assert forall j :: 0 <= j < |ext| ==> ext[j].value.Some? by {
      forall j | 0 <= j < |ext| ensures ext[j].value.Some? {
        if j < |pts| { assert ext[j] == pts[j]; }
      }
    }
    SamplesTotal(ext, steps);
  }

  /** Interpolating the two-day series of the documented case: 2.0 then 4.3 with the default 360 steps. */
  lemma DocumentedDay(pts: seq<DayPoint>, d: int)
    requires |pts| >= 2 && pts[0] == DayPoint(d, Some(2.0)) && pts[1].value == Some(4.3)
    ensures Interpolated(pts, DefaultSteps).Success? && |Interpolated(pts, DefaultSteps).value| >= 360
    ensures Interpolated(pts, DefaultSteps).value[0] == Sample(Stamp(d, 0, 0), Some(2.0))
    ensures Interpolated(pts, DefaultSteps).value[359] == Sample(Stamp(d, 23, 56), Some(2.0 + 359.0 * (2.3 / 360.0)))
  {
    var ext := Extended(pts);
    assert ext[0] == pts[0] && ext[1] == pts[1];
    SamplesPrefix(ext, 360, 1, |ext|);
    assert SamplesTo(ext, 360, 1) == DayBlock(d, 2.0, Some(4.3), 360);
    DayBlockLine(d, 2.0, 4.3, 360, 359);
    assert StampAt(d, 360, 359) == Stamp(d, 23, 56);
  }

  /** Chronological order of timestamps: by day, then by time of day. */
  predicate Earlier(a: Stamp, b: Stamp)
  {
    a.day < b.day || (a.day == b.day && MinuteOfDay(a) < MinuteOfDay(b))
  }

  /** The samples one point adds all fall on that point's day, in increasing time. */
  lemma ContributionOrdered(pts: seq<DayPoint>, steps: int, i: int)
    requires 1 <= steps <= MaxSteps && 0 <= i < |pts|
    ensures forall x :: 0 <= x < |Contribution(pts, steps, i)| ==> Contribution(pts, steps, i)[x].at.day == pts[i].day
    ensures forall x, y :: 0 <= x < y < |Contribution(pts, steps, i)| ==>
              MinuteOfDay(Contribution(pts, steps, i)[x].at) < MinuteOfDay(Contribution(pts, steps, i)[y].at)
  {
    var c := Contribution(pts, steps, i);
    if pts[i].value.Some? && i < |pts| - 1 {
      forall x, y | 0 <= x < y < |c| ensures MinuteOfDay(c[x].at) < MinuteOfDay(c[y].at) {
        StampsIncrease(pts[i].day, steps, x, y);
      }
    }
  }

  /**
   * When the points' days strictly increase, so do the sample times: the
   * output dates are in chronological order.
   */
  lemma {:induction false} SamplesChronological(pts: seq<DayPoint>, steps: int, k: int)
    requires 1 <= steps <= MaxSteps && 0 <= k <= |pts|
    requires forall j, m :: 0 <= j < m < |pts| ==> pts[j].day < pts[m].day
    ensures forall x, y :: 0 <= x < y < |SamplesTo(pts, steps, k)| ==>
              Earlier(SamplesTo(pts, steps, k)[x].at, SamplesTo(pts, steps, k)[y].at)
    ensures forall x, j :: 0 <= x < |SamplesTo(pts, steps, k)| && k <= j < |pts| ==>
              SamplesTo(pts, steps, k)[x].at.day < pts[j].day
  {
    if k > 0 {
      SamplesChronological(pts, steps, k - 1);
      ContributionOrdered(pts, steps, k - 1);
      var prev := SamplesTo(pts, steps, k - 1);
      var c := Contribution(pts, steps, k - 1);
      var all := SamplesTo(pts, steps, k);
      assert all == prev + c;
      forall x, y | 0 <= x < y < |all| ensures Earlier(all[x].at, all[y].at) {
        if y < |prev| {
          assert all[x] == prev[x] && all[y] == prev[y];
        } else if x < |prev| {
          assert all[x] == prev[x] && all[y] == c[y - |prev|];
        } else {
          assert all[x] == c[x - |prev|] && all[y] == c[y - |prev|];
        }
      }
      forall x, j | 0 <= x < |all| && k <= j < |pts| ensures all[x].at.day < pts[j].day {
        if x < |prev| {
          assert all[x] == prev[x];
        } else {
          assert all[x] == c[x - |prev|];
        }
      }
    }
  }

  /** The interpolated series of a list with strictly increasing days is in chronological order. */
  lemma InterpolatedChronological(pts: seq<DayPoint>, steps: int)
    requires Interpolated(pts, steps).Success? && 1 <= steps
    requires forall j, m :: 0 <= j < m < |pts| ==> pts[j].day < pts[m].day
    ensures var out := Interpolated(pts, steps).value;
            forall x, y :: 0 <= x < y < |out| ==> Earlier(out[x].at, out[y].at)
  {
    var ext := Extended(pts);
    forall j, m | 0 <= j < m < |ext| ensures ext[j].day < ext[m].day {
      if m < |pts| {
        assert ext[j] == pts[j] && ext[m] == pts[m];
      } else if j < |pts| - 1 {
        assert ext[j] == pts[j] && pts[j].day < pts[|pts| - 1].day;
      }
    }
    SamplesChronological(ext, steps, |ext|);
  }

  // ---------------------------------------------------------------------------
  // The array branch of interpolate

  /**
   * interpolate on a numpy array as written: the call that should append the
   * extra day returns a new array and discards it, so the samples are those
   * of the unextended points.
   */
  function InterpolatedArray(pts: seq<DayPoint>, steps: int): (r: Result<seq<Sample>, InterpolateError>)
    ensures Interpolated(pts, steps).Failure? <==> r.Failure?
    ensures r.Failure? ==> r.error == Interpolated(pts, steps).error
  {
    match Rejected(pts, steps)
    case Some(e) => Failure(e)
    case None => Success(SamplesTo(pts, steps, |pts|))
  }

  /**
   * On the array branch the last day gets only its midnight sample, so a
   * single known day yields one sample where the list branch yields a full
   * day plus the following midnight.
   */
  lemma ArrayDropsLastDay(pts: seq<DayPoint>, steps: int)
    requires 1 <= steps <= MaxSteps && |pts| > 0
    requires forall j :: 0 <= j < |pts| ==> pts[j].value.Some?
    ensures InterpolatedArray(pts, steps).Success?
    ensures |InterpolatedArray(pts, steps).value| == steps * (|pts| - 1) + 1
    ensures |Interpolated(pts, steps).value| == |InterpolatedArray(pts, steps).value| + steps
    ensures |pts| == 1 ==> InterpolatedArray(pts, steps).value == [Sample(Stamp(pts[0].day, 0, 0), pts[0].value)]
  {
    SamplesTotal(pts, steps);
    InterpolatedShape(pts, steps);
    if |pts| == 1 {
      assert SamplesTo(pts, steps, 0) == [];
    }
  }
}
