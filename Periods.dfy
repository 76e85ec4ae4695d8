/**
 * Detection of high- and low-mood periods (find_high_periods and
 * find_low_periods of the statistics engine) over the smoothed daily series.
 *
 * The detector is a threshold-crossing state machine. It is specified twice:
 * index by index (ScanPrefix, Spans), which is what the loop follows, and
 * declaratively (Decomposes), which says what the spans found are.
 */
module Periods {
  import opened Wrappers
  import opened Numeric
  import opened Parser
  import opened Stats

  /** find_high_periods looks above the threshold, find_low_periods below it. */
  datatype Direction = High | Low

  const HighThreshold: real := 4.0
  const HighMinDuration: int := 4
  const LowThreshold: real := 3.0
  const LowMinDuration: int := 5

  /** A closed period of good or bad mood; `duration` is in days. */
  datatype MoodPeriod = MoodPeriod(start: int, end: int, duration: int, avgMood: real)

  /**
   * Why a search aborts: constructing a MoodPeriod failed its validation, or
   * the rolling mean it starts from raised.
   */
  datatype PeriodError = InvalidPeriod(start: int, end: int) | NoRollingMean(cause: RollingError)

  /** The value opens a period: strictly past the threshold. NaN never does. */
  predicate Opens(dir: Direction, v: Option<real>, t: real)
  {
    v.Some? && (if dir == High then v.value > t else v.value < t)
  }

  /** The value closes an open period: back at or behind the threshold. NaN never does. */
  predicate Closes(dir: Direction, v: Option<real>, t: real)
  {
    v.Some? && (if dir == High then v.value <= t else v.value >= t)
  }

  /** No value both opens and closes, and NaN does neither. */
  lemma OpensClosesExclusive(dir: Direction, v: Option<real>, t: real)
    ensures !(Opens(dir, v, t) && Closes(dir, v, t))
    ensures v.None? ==> !Opens(dir, v, t) && !Closes(dir, v, t)
  {
  }

  /** The values of a window, or None when one of them is NaN (np.mean is then NaN). */
  function Known(ms: seq<Option<real>>): (r: Option<seq<real>>)
    ensures r.Some? <==> forall k :: 0 <= k < |ms| ==> ms[k].Some?
    ensures r.Some? ==> |r.value| == |ms| && forall k :: 0 <= k < |ms| ==> r.value[k] == ms[k].value
  {
    if forall k :: 0 <= k < |ms| ==> ms[k].Some? then Some(seq(|ms|, k requires 0 <= k < |ms| => ms[k].value))
    else None
  }

  /** The validation of MoodPeriod: a positive duration and a mean mood in [1, 5]. */
  predicate ValidPeriod(p: MoodPeriod)
  {
    p.duration > 0 && 1.0 <= p.avgMood <= 5.0
  }

  /**
   * MoodPeriod(start, end, end - start, mean(moods)). It fails when the
   * duration is not positive or the mean is NaN or outside [1, 5].
   */
  function MakePeriod(start: int, end: int, ms: seq<Option<real>>): (r: Result<MoodPeriod, PeriodError>)
    requires |ms| > 0
    ensures r.Success? <==> end - start > 0 && Known(ms).Some? && 1.0 <= Mean(Known(ms).value) <= 5.0
    ensures r.Success? ==> ValidPeriod(r.value) && r.value.start == start && r.value.end == end
                           && r.value.duration == end - start && r.value.avgMood == Mean(Known(ms).value)
    ensures r.Failure? ==> r.error == InvalidPeriod(start, end)
  {
    var vs := Known(ms);
    if end - start > 0 && vs.Some? && 1.0 <= Mean(vs.value) <= 5.0
    then Success(MoodPeriod(start, end, end - start, Mean(vs.value)))
    else Failure(InvalidPeriod(start, end))
  }

  // ---------------------------------------------------------------------------
  // The scan, index by index

  /** Indices of the opening and the closing value of one period. */
  datatype Span = Span(open: int, close: int)

  /** The spans closed so far and the index of the opening value of the open one. */
  datatype ScanState = ScanState(closed: seq<Span>, open: Option<int>)

  /** One loop iteration at index k: possibly open a period, then possibly close it. */
  function Step(dir: Direction, t: real, s: ScanState, v: Option<real>, k: int): ScanState
  {
    var s1 := if s.open.None? && Opens(dir, v, t) then ScanState(s.closed, Some(k)) else s;
    if s1.open.Some? && Closes(dir, v, t) then ScanState(s1.closed + [Span(s1.open.value, k)], None) else s1
  }

  /** The state after the first i values. */
  function ScanPrefix(vals: seq<Option<real>>, dir: Direction, t: real, i: int): ScanState
    requires 0 <= i <= |vals|
  {
    if i == 0 then ScanState([], None)
    else Step(dir, t, ScanPrefix(vals, dir, t, i - 1), vals[i - 1], i - 1)
  }

  /** All periods found: the closed ones, and the one still open at the end closed at the last index. */
  function Spans(vals: seq<Option<real>>, dir: Direction, t: real): seq<Span>
  {
    var s := ScanPrefix(vals, dir, t, |vals|);
    if s.open.Some? then s.closed + [Span(s.open.value, |vals| - 1)] else s.closed
  }

  /** The mood column of the smoothed series. */
  function MoodsOf(series: seq<DayPoint>): seq<Option<real>>
  {
    seq(|series|, k requires 0 <= k < |series| => series[k].value)
  }

  predicate InRange(spans: seq<Span>, n: int)
  {
    forall k :: 0 <= k < |spans| ==> 0 <= spans[k].open <= spans[k].close < n
  }

  /** The period of one span: from its opening date to its closing date, both values included. */
  function PeriodOf(series: seq<DayPoint>, s: Span): Result<MoodPeriod, PeriodError>
    requires 0 <= s.open <= s.close < |series|
  {
    MakePeriod(series[s.open].day, series[s.close].day, MoodsOf(series)[s.open..s.close + 1])
  }

  /**
   * The periods of the spans in order: the first invalid one aborts, the
   * valid ones shorter than minDur are dropped.
   */
  function BuildPeriods(series: seq<DayPoint>, spans: seq<Span>, minDur: int): (r: Result<seq<MoodPeriod>, PeriodError>)
    requires InRange(spans, |series|)
    ensures r.Success? ==> forall p :: p in r.value ==> ValidPeriod(p) && p.duration >= minDur
    ensures r.Success? ==> |r.value| <= |spans|
  {
    if spans == [] then Success([])
    else
      var init := spans[..|spans| - 1];
      var last := spans[|spans| - 1];
      assert InRange(init, |series|) by {
        forall k | 0 <= k < |init| ensures 0 <= init[k].open <= init[k].close < |series| {
          assert init[k] == spans[k];
        }
      }
      match BuildPeriods(series, init, minDur)
      case Failure(e) => Failure(e)
      case Success(ps) =>
        match PeriodOf(series, last)
        case Failure(e) => Failure(e)
        case Success(p) => Success(if p.duration >= minDur then ps + [p] else ps)
  }

  /** The search succeeds exactly when every span gives a valid period. */
  lemma {:induction false} BuildPeriodsSucceeds(series: seq<DayPoint>, spans: seq<Span>, minDur: int)
    requires InRange(spans, |series|)
    ensures BuildPeriods(series, spans, minDur).Success?
            <==> forall k :: 0 <= k < |spans| ==> PeriodOf(series, spans[k]).Success?
  {
    if spans != [] {
      var init := spans[..|spans| - 1];
      assert forall k :: 0 <= k < |init| ==> init[k] == spans[k];
      BuildPeriodsSucceeds(series, init, minDur);
    }
  }

  /**
   * The filter keeps what it should: when the search succeeds, the period of
   * every span that lasts at least minDur days is among the periods returned.
   */
  lemma {:induction false} BuildPeriodsKeeps(series: seq<DayPoint>, spans: seq<Span>, minDur: int, k: int)
    requires InRange(spans, |series|) && 0 <= k < |spans|
    requires BuildPeriods(series, spans, minDur).Success?
    requires PeriodOf(series, spans[k]).Success? && PeriodOf(series, spans[k]).value.duration >= minDur
    ensures PeriodOf(series, spans[k]).value in BuildPeriods(series, spans, minDur).value
  {
    var init := spans[..|spans| - 1];
    assert InRange(init, |series|) by {
      forall j | 0 <= j < |init| ensures 0 <= init[j].open <= init[j].close < |series| {
        assert init[j] == spans[j];
      }
    }
    if k < |spans| - 1 {
      assert init[k] == spans[k];
      BuildPeriodsKeeps(series, init, minDur, k);
    }
  }

  /** find_high_periods / find_low_periods on an already smoothed series. */
  function Periods(series: seq<DayPoint>, dir: Direction, t: real, minDur: int): Result<seq<MoodPeriod>, PeriodError>
  {
    SpansInRange(MoodsOf(series), dir, t);
    BuildPeriods(series, Spans(MoodsOf(series), dir, t), minDur)
  }

  // ---------------------------------------------------------------------------
  // What the spans are

  /** No value strictly between the opening and the closing index closes the period. */
  ghost predicate NoCloseInside(vals: seq<Option<real>>, dir: Direction, t: real, s: Span)
    requires 0 <= s.open && s.close <= |vals|
  {
    forall m :: s.open < m < s.close ==> !Closes(dir, vals[m], t)
  }

  ghost predicate Covered(spans: seq<Span>, m: int)
  {
    exists k :: 0 <= k < |spans| && spans[k].open <= m <= spans[k].close
  }

  /**
   * The spans cut the series into its periods: each opens on an opening
   * value, nothing inside closes it, it ends on a closing value or at the
   * last index, the spans come in order without sharing a day, and every
   * opening value lies in one of them.
   */
  ghost predicate Decomposes(vals: seq<Option<real>>, dir: Direction, t: real, spans: seq<Span>)
  {
    && InRange(spans, |vals|)
    && (forall k :: 0 <= k < |spans| ==> Opens(dir, vals[spans[k].open], t))
    && (forall k :: 0 <= k < |spans| ==> NoCloseInside(vals, dir, t, spans[k]))
    && (forall k :: 0 <= k < |spans| ==> Closes(dir, vals[spans[k].close], t) || spans[k].close == |vals| - 1)
    && (forall k, m :: 0 <= k < m < |spans| ==> spans[k].close < spans[m].open)
    && (forall m :: 0 <= m < |vals| && Opens(dir, vals[m], t) ==> Covered(spans, m))
  }

  /** The closed spans: well formed, in order, each ending on a closing value before index i. */
  ghost predicate ClosedOk(vals: seq<Option<real>>, dir: Direction, t: real, i: int, closed: seq<Span>)
    requires 0 <= i <= |vals|
  {
    && InRange(closed, i)
    && (forall k :: 0 <= k < |closed| ==> Opens(dir, vals[closed[k].open], t))
    && (forall k :: 0 <= k < |closed| ==> NoCloseInside(vals, dir, t, closed[k]))
    && (forall k :: 0 <= k < |closed| ==> Closes(dir, vals[closed[k].close], t))
    && (forall k, m :: 0 <= k < m < |closed| ==> closed[k].close < closed[m].open)
  }

  /** The open period: opened on an opening value after the last closed span, not closed since. */
  ghost predicate OpenOk(vals: seq<Option<real>>, dir: Direction, t: real, i: int, closed: seq<Span>, o: int)
    requires 0 <= i <= |vals|
  {
    && 0 <= o < i
    && Opens(dir, vals[o], t)
    && (forall k :: 0 <= k < |closed| ==> closed[k].close < o)
    && NoCloseInside(vals, dir, t, Span(o, i))
  }

  ghost predicate OpenStateOk(vals: seq<Option<real>>, dir: Direction, t: real, i: int, s: ScanState)
    requires 0 <= i <= |vals|
  {
    s.open.Some? ==> OpenOk(vals, dir, t, i, s.closed, s.open.value)
  }

  /** Every opening value before index i lies in a closed span or in the open period. */
  ghost predicate CoverOk(vals: seq<Option<real>>, dir: Direction, t: real, i: int, s: ScanState)
    requires 0 <= i <= |vals|
  {
    forall m :: 0 <= m < i && Opens(dir, vals[m], t) ==> Covered(s.closed, m) || (s.open.Some? && s.open.value <= m)
  }

  /** What holds of the scan after i values. */
  ghost predicate ScanInvariant(vals: seq<Option<real>>, dir: Direction, t: real, i: int, s: ScanState)
    requires 0 <= i <= |vals|
  {
    && ClosedOk(vals, dir, t, i, s.closed)
    && OpenStateOk(vals, dir, t, i, s)
    && CoverOk(vals, dir, t, i, s)
  }

  lemma CoveredSnoc(spans: seq<Span>, s: Span, m: int)
    requires Covered(spans, m) || s.open <= m <= s.close
    ensures Covered(spans + [s], m)
  {
    var spans' := spans + [s];
    if Covered(spans, m) {
      var k :| 0 <= k < |spans| && spans[k].open <= m <= spans[k].close;
      assert spans'[k] == spans[k];
    } else {
      assert spans'[|spans|] == s;
    }
  }

  lemma ClosedOkWiden(vals: seq<Option<real>>, dir: Direction, t: real, i: int, closed: seq<Span>)
    requires 0 <= i < |vals| && ClosedOk(vals, dir, t, i, closed)
    ensures ClosedOk(vals, dir, t, i + 1, closed)
  {
  }

  lemma ClosedOkSnoc(vals: seq<Option<real>>, dir: Direction, t: real, i: int, closed: seq<Span>, o: int)
    requires 0 <= i < |vals| && ClosedOk(vals, dir, t, i, closed) && OpenOk(vals, dir, t, i, closed, o)
    requires Closes(dir, vals[i], t)
    ensures ClosedOk(vals, dir, t, i + 1, closed + [Span(o, i)])
  {
    var closed' := closed + [Span(o, i)];
    assert forall k :: 0 <= k < |closed| ==> closed'[k] == closed[k];
    assert NoCloseInside(vals, dir, t, Span(o, i));
  }

  /** Opening at index i: the closed spans stay, and the new period covers index i. */
  lemma StepOpens(vals: seq<Option<real>>, dir: Direction, t: real, i: int, s: ScanState)
    requires 0 <= i < |vals| && ScanInvariant(vals, dir, t, i, s)
    requires s.open.None? && Opens(dir, vals[i], t)
    ensures ScanInvariant(vals, dir, t, i + 1, Step(dir, t, s, vals[i], i))
  {
    OpensClosesExclusive(dir, vals[i], t);
    assert Step(dir, t, s, vals[i], i) == ScanState(s.closed, Some(i));
    ClosedOkWiden(vals, dir, t, i, s.closed);
    assert NoCloseInside(vals, dir, t, Span(i, i + 1));
  }

  /** Closing at index i: the open period joins the closed spans. */
  lemma StepCloses(vals: seq<Option<real>>, dir: Direction, t: real, i: int, s: ScanState)
    requires 0 <= i < |vals| && ScanInvariant(vals, dir, t, i, s)
    requires s.open.Some? && Closes(dir, vals[i], t)
    ensures ScanInvariant(vals, dir, t, i + 1, Step(dir, t, s, vals[i], i))
  {
    OpensClosesExclusive(dir, vals[i], t);
    var sp := Span(s.open.value, i);
    var closed' := s.closed + [sp];
    assert Step(dir, t, s, vals[i], i) == ScanState(closed', None);
    ClosedOkSnoc(vals, dir, t, i, s.closed, s.open.value);
    forall m | 0 <= m < i + 1 && Opens(dir, vals[m], t) ensures Covered(closed', m) {
      CoveredSnoc(s.closed, sp, m);
    }
  }

  /** Neither opening nor closing at index i: the state carries over. */
  lemma StepKeeps(vals: seq<Option<real>>, dir: Direction, t: real, i: int, s: ScanState)
    requires 0 <= i < |vals| && ScanInvariant(vals, dir, t, i, s)
    requires !(s.open.None? && Opens(dir, vals[i], t)) && !(s.open.Some? && Closes(dir, vals[i], t))
    ensures ScanInvariant(vals, dir, t, i + 1, Step(dir, t, s, vals[i], i))
  {
    assert Step(dir, t, s, vals[i], i) == s;
    ClosedOkWiden(vals, dir, t, i, s.closed);
    if s.open.Some? {
      assert NoCloseInside(vals, dir, t, Span(s.open.value, i + 1));
    }
  }

  lemma StepPreserves(vals: seq<Option<real>>, dir: Direction, t: real, i: int, s: ScanState, s': ScanState)
    requires 0 <= i < |vals| && ScanInvariant(vals, dir, t, i, s)
    requires s' == Step(dir, t, s, vals[i], i)
    ensures ScanInvariant(vals, dir, t, i + 1, s')
  {
    if s.open.None? && Opens(dir, vals[i], t) {
      StepOpens(vals, dir, t, i, s);
    } else if s.open.Some? && Closes(dir, vals[i], t) {
      StepCloses(vals, dir, t, i, s);
    } else {
      StepKeeps(vals, dir, t, i, s);
    }
  }

  /** The scan invariant holds of the state after every prefix. */
  lemma {:induction false} ScanInvariantHolds(vals: seq<Option<real>>, dir: Direction, t: real, i: int, s: ScanState)
    requires 0 <= i <= |vals| && s == ScanPrefix(vals, dir, t, i)
    ensures ScanInvariant(vals, dir, t, i, s)
  {
    if i > 0 {
      var prev := ScanPrefix(vals, dir, t, i - 1);
      ScanInvariantHolds(vals, dir, t, i - 1, prev);
      assert s == Step(dir, t, prev, vals[i - 1], i - 1);
      StepPreserves(vals, dir, t, i - 1, prev, s);
    }
  }

  lemma FinishIdle(vals: seq<Option<real>>, dir: Direction, t: real, s: ScanState)
    requires ScanInvariant(vals, dir, t, |vals|, s) && s.open.None?
    ensures Decomposes(vals, dir, t, s.closed)
  {
  }

  lemma FinishOpen(vals: seq<Option<real>>, dir: Direction, t: real, s: ScanState)
    requires ScanInvariant(vals, dir, t, |vals|, s) && s.open.Some?
    ensures Decomposes(vals, dir, t, s.closed + [Span(s.open.value, |vals| - 1)])
  {
    var sp := Span(s.open.value, |vals| - 1);
    var spans := s.closed + [sp];
    assert OpenOk(vals, dir, t, |vals|, s.closed, s.open.value);
    assert forall k :: 0 <= k < |s.closed| ==> spans[k] == s.closed[k];
    assert NoCloseInside(vals, dir, t, sp);
    forall m | 0 <= m < |vals| && Opens(dir, vals[m], t) ensures Covered(spans, m) {
      CoveredSnoc(s.closed, sp, m);
    }
  }

  lemma SpansInRange(vals: seq<Option<real>>, dir: Direction, t: real)
    ensures InRange(Spans(vals, dir, t), |vals|)
  {
    SpansDecompose(vals, dir, t);
  }

  /** The spans the scan finds are exactly the periods of the series, as Decomposes describes them. */
  lemma SpansDecompose(vals: seq<Option<real>>, dir: Direction, t: real)
    ensures Decomposes(vals, dir, t, Spans(vals, dir, t))
  {
    var s := ScanPrefix(vals, dir, t, |vals|);
    ScanInvariantHolds(vals, dir, t, |vals|, s);
    if s.open.Some? {
      FinishOpen(vals, dir, t, s);
    } else {
      FinishIdle(vals, dir, t, s);
    }
  }

  // ---------------------------------------------------------------------------
  // The loop of find_high_periods / find_low_periods

  /** Later states only add closed spans. */
  lemma {:induction false} ClosedGrows(vals: seq<Option<real>>, dir: Direction, t: real, i: int, j: int)
    requires 0 <= i <= j <= |vals|
    ensures ScanPrefix(vals, dir, t, i).closed <= ScanPrefix(vals, dir, t, j).closed
  {
    if i < j {
      ClosedGrows(vals, dir, t, i, j - 1);
    }
  }

  /** The final spans extend the closed spans of every intermediate state. */
  lemma ClosedInSpans(vals: seq<Option<real>>, dir: Direction, t: real, i: int)
    requires 0 <= i <= |vals|
    ensures ScanPrefix(vals, dir, t, i).closed <= Spans(vals, dir, t)
  {
    ClosedGrows(vals, dir, t, i, |vals|);
  }

  /** The closed spans lie before index i, and so does the opening of the open one. */
  lemma ScanBounds(vals: seq<Option<real>>, dir: Direction, t: real, i: int)
    requires 0 <= i <= |vals|
    ensures InRange(ScanPrefix(vals, dir, t, i).closed, |vals|)
    ensures ScanPrefix(vals, dir, t, i).open.Some? ==> 0 <= ScanPrefix(vals, dir, t, i).open.value < i
  {
    var s := ScanPrefix(vals, dir, t, i);
    ScanInvariantHolds(vals, dir, t, i, s);
    assert ClosedOk(vals, dir, t, i, s.closed);
    assert OpenStateOk(vals, dir, t, i, s);
  }

  /** The loop state after i values: start_date, moods and dates against the scan. */
  ghost predicate Agrees(series: seq<DayPoint>, dir: Direction, t: real, minDur: int, i: int,
                         startDay: Option<int>, moods: seq<Option<real>>, dates: seq<MoodPeriod>)
    requires 0 <= i <= |series|
  {
    var s := ScanPrefix(MoodsOf(series), dir, t, i);
    && InRange(s.closed, |series|)
    && BuildPeriods(series, s.closed, minDur) == Success(dates)
    && (startDay.Some? <==> s.open.Some?)
    && (s.open.Some? ==> 0 <= s.open.value < i && startDay == Some(series[s.open.value].day)
                         && moods == MoodsOf(series)[s.open.value..i])
  }

  /** Once a prefix of the spans has an invalid period, the whole search fails with its error. */
  lemma {:induction false} BuildPeriodsPrefix(series: seq<DayPoint>, spans: seq<Span>, k: int, minDur: int)
    requires InRange(spans, |series|) && 0 <= k <= |spans|
    requires BuildPeriods(series, spans[..k], minDur).Failure?
    ensures BuildPeriods(series, spans, minDur) == BuildPeriods(series, spans[..k], minDur)
  {
    if k < |spans| {
      var init := spans[..|spans| - 1];
      assert init[..k] == spans[..k];
      BuildPeriodsPrefix(series, init, k, minDur);
    } else {
      assert spans[..k] == spans;
    }
  }

  /** One more span: its period is checked and, when long enough, appended. */
  lemma BuildPeriodsSnoc(series: seq<DayPoint>, spans: seq<Span>, s: Span, minDur: int)
    requires InRange(spans, |series|) && 0 <= s.open <= s.close < |series|
    ensures InRange(spans + [s], |series|)
    ensures BuildPeriods(series, spans + [s], minDur)
            == match BuildPeriods(series, spans, minDur)
               case Failure(e) => Failure(e)
               case Success(ps) =>
                 match PeriodOf(series, s)
                 case Failure(e) => Failure(e)
                 case Success(p) => Success(if p.duration >= minDur then ps + [p] else ps)
  {
    assert (spans + [s])[..|spans|] == spans;
    assert (spans + [s])[|spans|] == s;
    assert forall k :: 0 <= k < |spans| ==> (spans + [s])[k] == spans[k];
  }

  /** The state after the opening test of iteration i: start_date set and moods reset when v opens. */
  predicate OpenedAt(dir: Direction, t: real, p: DayPoint, startDay: Option<int>, moods: seq<Option<real>>,
                     startDay1: Option<int>, moods1: seq<Option<real>>)
  {
    if startDay.None? && Opens(dir, p.value, t) then startDay1 == Some(p.day) && moods1 == []
    else startDay1 == startDay && moods1 == moods
  }

  /** An iteration that does not close a period keeps the loop state in step with the scan. */
  lemma StepNoClose(series: seq<DayPoint>, dir: Direction, t: real, minDur: int, i: int,
                    startDay: Option<int>, moods: seq<Option<real>>, dates: seq<MoodPeriod>,
                    startDay1: Option<int>, moods1: seq<Option<real>>)
    requires 0 <= i < |series| && Agrees(series, dir, t, minDur, i, startDay, moods, dates)
    requires OpenedAt(dir, t, series[i], startDay, moods, startDay1, moods1)
    requires !(startDay1.Some? && Closes(dir, series[i].value, t))
    ensures Agrees(series, dir, t, minDur, i + 1, startDay1, moods1 + [series[i].value], dates)
  {
    var vals := MoodsOf(series);
    var before := ScanPrefix(vals, dir, t, i);
    assert ScanPrefix(vals, dir, t, i + 1) == Step(dir, t, before, vals[i], i);
    if before.open.Some? {
      assert vals[before.open.value..i + 1] == vals[before.open.value..i] + [vals[i]];
    } else if startDay1.Some? {
      assert vals[i..i + 1] == [vals[i]];
    }
  }

  /** An iteration that closes a period adds the span from the opening index to i to the closed ones. */
  lemma CloseStep(series: seq<DayPoint>, dir: Direction, t: real, minDur: int, i: int,
                  startDay: Option<int>, moods: seq<Option<real>>, dates: seq<MoodPeriod>,
                  startDay1: Option<int>, moods1: seq<Option<real>>)
    requires 0 <= i < |series| && Agrees(series, dir, t, minDur, i, startDay, moods, dates)
    requires OpenedAt(dir, t, series[i], startDay, moods, startDay1, moods1)
    requires startDay1.Some? && Closes(dir, series[i].value, t)
    ensures var before := ScanPrefix(MoodsOf(series), dir, t, i);
            && before.open.Some?
            && ScanPrefix(MoodsOf(series), dir, t, i + 1) == ScanState(before.closed + [Span(before.open.value, i)], None)
            && InRange(before.closed, |series|) && 0 <= before.open.value <= i
            && PeriodOf(series, Span(before.open.value, i))
               == MakePeriod(startDay1.value, series[i].day, moods1 + [series[i].value])
  {
    var vals := MoodsOf(series);
    var before := ScanPrefix(vals, dir, t, i);
    OpensClosesExclusive(dir, vals[i], t);
    var o := before.open.value;
    assert ScanPrefix(vals, dir, t, i + 1) == Step(dir, t, before, vals[i], i);
    assert vals[o..i + 1] == vals[o..i] + [vals[i]];
  }

  /** A span whose MoodPeriod is invalid, reached after valid ones, makes the whole search fail with its error. */
  lemma SpanFails(series: seq<DayPoint>, spans: seq<Span>, prev: seq<Span>, s: Span, minDur: int,
                   dates: seq<MoodPeriod>, p: Result<MoodPeriod, PeriodError>)
    requires InRange(spans, |series|) && prev + [s] <= spans
    requires InRange(prev, |series|) && 0 <= s.open <= s.close < |series|
    requires BuildPeriods(series, prev, minDur) == Success(dates)
    requires PeriodOf(series, s) == p && p.Failure?
    ensures BuildPeriods(series, spans, minDur) == Failure(p.error)
  {
    var after := prev + [s];
    BuildPeriodsSnoc(series, prev, s, minDur);
    assert spans[..|after|] == after;
    BuildPeriodsPrefix(series, spans, |after|, minDur);
  }

  /** A period closed with an invalid MoodPeriod makes the whole search fail with its error. */
  lemma CloseFails(series: seq<DayPoint>, dir: Direction, t: real, minDur: int, i: int,
                   prev: seq<Span>, dates: seq<MoodPeriod>, s: Span, p: Result<MoodPeriod, PeriodError>)
    requires 0 <= i < |series|
    requires InRange(prev, |series|) && 0 <= s.open <= s.close < |series|
    requires ScanPrefix(MoodsOf(series), dir, t, i + 1).closed == prev + [s]
    requires BuildPeriods(series, prev, minDur) == Success(dates)
    requires PeriodOf(series, s) == p && p.Failure?
    ensures Periods(series, dir, t, minDur) == Failure(p.error)
  {
    var vals := MoodsOf(series);
    ClosedInSpans(vals, dir, t, i + 1);
    SpansInRange(vals, dir, t);
    SpanFails(series, Spans(vals, dir, t), prev, s, minDur, dates, p);
  }

  /** A period closed with a valid MoodPeriod is kept when long enough, and the scan goes on idle. */
  lemma CloseKeeps(series: seq<DayPoint>, dir: Direction, t: real, minDur: int, i: int,
                   prev: seq<Span>, dates: seq<MoodPeriod>, s: Span, p: Result<MoodPeriod, PeriodError>)
    requires 0 <= i < |series|
    requires InRange(prev, |series|) && 0 <= s.open <= s.close < |series|
    requires ScanPrefix(MoodsOf(series), dir, t, i + 1) == ScanState(prev + [s], None)
    requires BuildPeriods(series, prev, minDur) == Success(dates)
    requires PeriodOf(series, s) == p && p.Success?
    ensures Agrees(series, dir, t, minDur, i + 1, None, [],
                   if p.value.duration >= minDur then dates + [p.value] else dates)
  {
    BuildPeriodsSnoc(series, prev, s, minDur);
  }

  /** The for-else tail with no period open: the result is the periods kept so far. */
  lemma LoopEndIdle(series: seq<DayPoint>, dir: Direction, t: real, minDur: int,
                   moods: seq<Option<real>>, dates: seq<MoodPeriod>)
    requires Agrees(series, dir, t, minDur, |series|, None, moods, dates)
    ensures Periods(series, dir, t, minDur) == Success(dates)
  {
    var vals := MoodsOf(series);
    assert Spans(vals, dir, t) == ScanPrefix(vals, dir, t, |vals|).closed;
  }

  /** The for-else tail with a period open: it is closed at the last date, checked and filtered. */
  lemma LoopEndOpen(series: seq<DayPoint>, dir: Direction, t: real, minDur: int,
                   start: int, moods: seq<Option<real>>, dates: seq<MoodPeriod>)
    requires Agrees(series, dir, t, minDur, |series|, Some(start), moods, dates)
    ensures |series| > 0 && |moods| > 0
    ensures var p := MakePeriod(start, series[|series| - 1].day, moods);
            Periods(series, dir, t, minDur)
            == if p.Failure? then Failure(p.error)
               else Success(if p.value.duration >= minDur then dates + [p.value] else dates)
  {
    var vals := MoodsOf(series);
    var final := ScanPrefix(vals, dir, t, |vals|);
    var last := Span(final.open.value, |vals| - 1);
    assert Spans(vals, dir, t) == final.closed + [last];
    SpansInRange(vals, dir, t);
    assert PeriodOf(series, last) == MakePeriod(start, series[|series| - 1].day, moods);
    BuildPeriodsSnoc(series, final.closed, last, minDur);
  }

  /**
   * The detector loop, keeping start_date, moods and dates as the source does:
   * it returns the periods Periods describes, or the first validation error.
   */
  method DetectPeriods(series: seq<DayPoint>, dir: Direction, t: real, minDur: int)
    returns (r: Result<seq<MoodPeriod>, PeriodError>)
    ensures r == Periods(series, dir, t, minDur)
  {
    var startDay: Option<int> := None;
    var moods: seq<Option<real>> := [];
    var dates: seq<MoodPeriod> := [];
    var i := 0;
    while i < |series|
      invariant 0 <= i <= |series|
      invariant Agrees(series, dir, t, minDur, i, startDay, moods, dates)
    {
      ghost var startDay0, moods0 := startDay, moods;
      var day := series[i].day;
      var mood := series[i].value;
      if startDay.None? && Opens(dir, mood, t) {
        startDay := Some(day);
        moods := [];
      }
      ghost var moods1 := moods;
      moods := moods + [mood];
      if startDay.Some? && Closes(dir, mood, t) {
        CloseStep(series, dir, t, minDur, i, startDay0, moods0, dates, startDay, moods1);
        ghost var prev := ScanPrefix(MoodsOf(series), dir, t, i).closed;
        ghost var s := Span(ScanPrefix(MoodsOf(series), dir, t, i).open.value, i);
        var period := MakePeriod(startDay.value, day, moods);
        if period.Failure? {
          CloseFails(series, dir, t, minDur, i, prev, dates, s, period);
          return Failure(period.error);
        }
        CloseKeeps(series, dir, t, minDur, i, prev, dates, s, period);
        if period.value.duration >= minDur {
          dates := dates + [period.value];
        }
        startDay := None;
        moods := [];
      } else {
        StepNoClose(series, dir, t, minDur, i, startDay0, moods0, dates, startDay, moods1);
      }
      i := i + 1;
    }
    if startDay.None? {
      LoopEndIdle(series, dir, t, minDur, moods, dates);
    } else {
      LoopEndOpen(series, dir, t, minDur, startDay.value, moods, dates);
    }
    if startDay.Some? {
      var period := MakePeriod(startDay.value, series[|series| - 1].day, moods);
      if period.Failure? {
        return Failure(period.error);
      }
      if period.value.duration >= minDur {
        dates := dates + [period.value];
      }
    }
    return Success(dates);
  }

  /**
   * find_high_periods: the periods of elevated mood in the rolling mean over
   * five days, opening above the threshold (4 by default) and kept when at
   * least minDuration days long (4 by default); with fewer than five days the
   * rolling mean's error aborts the search.
   */
  method FindHighPeriods(es: seq<Entry>, threshold: real := HighThreshold, minDuration: int := HighMinDuration)
    returns (r: Result<seq<MoodPeriod>, PeriodError>)
    ensures |DaysSeen(es)| == 0 ==> r == Failure(NoRollingMean(NoDays))
    ensures 0 < |DaysSeen(es)| < Window ==> r == Failure(NoRollingMean(TooFewDays(|DaysSeen(es)|, Window)))
    ensures Window <= |DaysSeen(es)| ==> r == Periods(Smoothed(DailyAverages(es), Window), High, threshold, minDuration)
  {
    var smoothed := RollingMean(es);
    if smoothed.Failure? {
      return Failure(NoRollingMean(smoothed.error));
    }
    r := DetectPeriods(smoothed.value, High, threshold, minDuration);
  }

  /**
   * find_low_periods: the periods of low mood in the rolling mean over five
   * days, opening below the threshold (3 by default) and kept when at least
   * minDuration days long (5 by default); with fewer than five days the
   * rolling mean's error aborts the search.
   */
  method FindLowPeriods(es: seq<Entry>, threshold: real := LowThreshold, minDuration: int := LowMinDuration)
    returns (r: Result<seq<MoodPeriod>, PeriodError>)
    ensures |DaysSeen(es)| == 0 ==> r == Failure(NoRollingMean(NoDays))
    ensures 0 < |DaysSeen(es)| < Window ==> r == Failure(NoRollingMean(TooFewDays(|DaysSeen(es)|, Window)))
    ensures Window <= |DaysSeen(es)| ==> r == Periods(Smoothed(DailyAverages(es), Window), Low, threshold, minDuration)
  {
    var smoothed := RollingMean(es);
    if smoothed.Failure? {
      return Failure(NoRollingMean(smoothed.error));
    }
    r := DetectPeriods(smoothed.value, Low, threshold, minDuration);
  }

  // ---------------------------------------------------------------------------
  // Properties of the detector

  lemma {:induction false} NoOpeningStaysIdle(vals: seq<Option<real>>, dir: Direction, t: real, i: int)
    requires 0 <= i <= |vals|
    requires forall m :: 0 <= m < |vals| ==> !Opens(dir, vals[m], t)
    ensures ScanPrefix(vals, dir, t, i) == ScanState([], None)
  {
    if i > 0 {
      NoOpeningStaysIdle(vals, dir, t, i - 1);
    }
  }

  /** Without a value past the threshold there is no period, and nothing can fail. */
  lemma NoOpeningNoPeriods(series: seq<DayPoint>, dir: Direction, t: real, minDur: int)
    requires forall m :: 0 <= m < |series| ==> !Opens(dir, series[m].value, t)
    ensures Periods(series, dir, t, minDur) == Success([])
  {
    NoOpeningStaysIdle(MoodsOf(series), dir, t, |series|);
  }

  /** A period that opens on the last day is closed the same day, has duration 0, and fails validation. */
  lemma LastDayOpeningFails(series: seq<DayPoint>, dir: Direction, t: real, minDur: int)
    requires |series| > 0
    requires ScanPrefix(MoodsOf(series), dir, t, |series| - 1).open.None?
    requires Opens(dir, series[|series| - 1].value, t)
    ensures Periods(series, dir, t, minDur).Failure?
  {
    var vals := MoodsOf(series);
    var n := |series|;
    var before := ScanPrefix(vals, dir, t, n - 1);
    OpensClosesExclusive(dir, vals[n - 1], t);
    assert ScanPrefix(vals, dir, t, n) == ScanState(before.closed, Some(n - 1));
    var last := Span(n - 1, n - 1);
    assert Spans(vals, dir, t) == before.closed + [last];
    SpansInRange(vals, dir, t);
    ScanBounds(vals, dir, t, n - 1);
    BuildPeriodsSnoc(series, before.closed, last, minDur);
  }

  /** The smoothed series shape: NaN only before the first number, and every number a mood in [1, 5]. */
  ghost predicate Chronological(series: seq<DayPoint>)
  {
    && (forall a, b :: 0 <= a < b < |series| ==> series[a].day < series[b].day)
    && (forall a, b :: 0 <= a < b < |series| && series[a].value.Some? ==> series[b].value.Some?)
    && (forall k :: 0 <= k < |series| && series[k].value.Some? ==> 1.0 <= series[k].value.value <= 5.0)
  }

  /** On such a series a span's period is valid exactly when it spans more than one day. */
  lemma ChronologicalPeriod(series: seq<DayPoint>, dir: Direction, t: real, s: Span)
    requires Chronological(series) && 0 <= s.open <= s.close < |series|
    requires Opens(dir, series[s.open].value, t)
    ensures PeriodOf(series, s).Success? <==> s.open < s.close
  {
    var ms := MoodsOf(series)[s.open..s.close + 1];
    assert forall k :: 0 <= k < |ms| ==> ms[k] == series[s.open + k].value;
    var vs := Known(ms);
    assert vs.Some?;
    assert AllWithin(vs.value, 1.0, 5.0) by {
      forall k | 0 <= k < |vs.value| ensures 1.0 <= vs.value[k] <= 5.0 {
        assert vs.value[k] == series[s.open + k].value.value;
      }
    }
    MeanBounds(vs.value, 1.0, 5.0);
  }

  /**
   * On a chronological series of moods (NaN only at the front) the search
   * fails exactly when a period opens on the last day.
   */
  lemma FailsIffOpensOnLastDay(series: seq<DayPoint>, dir: Direction, t: real, minDur: int)
    requires Chronological(series)
    ensures var spans := Spans(MoodsOf(series), dir, t);
            Periods(series, dir, t, minDur).Failure?
            <==> exists k :: 0 <= k < |spans| && spans[k].open == |series| - 1
  {
    var vals := MoodsOf(series);
    var spans := Spans(vals, dir, t);
    SpansInRange(vals, dir, t);
    BuildPeriodsSucceeds(series, spans, minDur);
    forall k | 0 <= k < |spans|
      ensures PeriodOf(series, spans[k]).Success? <==> spans[k].open != |series| - 1
    {
      SpanEnds(vals, dir, t, k);
      SpanValidIff(series, dir, t, spans[k]);
    }
  }

  /** Each span found opens on an opening value and ends on a closing value or on the last index. */
  lemma SpanEnds(vals: seq<Option<real>>, dir: Direction, t: real, k: int)
    requires 0 <= k < |Spans(vals, dir, t)|
    ensures var s := Spans(vals, dir, t)[k];
            && 0 <= s.open <= s.close < |vals| && Opens(dir, vals[s.open], t)
            && (Closes(dir, vals[s.close], t) || s.close == |vals| - 1)
  {
    SpansDecompose(vals, dir, t);
  }

  /** On a chronological series, the period of such a span is valid exactly when it does not open on the last day. */
  lemma SpanValidIff(series: seq<DayPoint>, dir: Direction, t: real, s: Span)
    requires Chronological(series) && 0 <= s.open <= s.close < |series|
    requires Opens(dir, MoodsOf(series)[s.open], t)
    requires Closes(dir, MoodsOf(series)[s.close], t) || s.close == |series| - 1
    ensures PeriodOf(series, s).Success? <==> s.open != |series| - 1
  {
    OpensClosesExclusive(dir, MoodsOf(series)[s.open], t);
    ChronologicalPeriod(series, dir, t, s);
  }

  /**
   * A short smoothed series: NaN first, then 4.5, 4.2 and 3.8. Above 4 the
   * period opens on day 2 and closes on day 4 (3.8 is back at or below 4),
   * lasting 2 days with mean (4.5 + 4.2 + 3.8) / 3; a minimum of 4 days drops it.
   */
  lemma HighPeriodExample()
    ensures var series := [DayPoint(1, None), DayPoint(2, Some(4.5)), DayPoint(3, Some(4.2)), DayPoint(4, Some(3.8))];
            && Periods(series, High, HighThreshold, 1) == Success([MoodPeriod(2, 4, 2, 12.5 / 3.0)])
            && Periods(series, High, HighThreshold, HighMinDuration) == Success([])
  {
    var series := [DayPoint(1, None), DayPoint(2, Some(4.5)), DayPoint(3, Some(4.2)), DayPoint(4, Some(3.8))];
    var vals := MoodsOf(series);
    assert vals == [None, Some(4.5), Some(4.2), Some(3.8)];
    assert ScanPrefix(vals, High, 4.0, 1) == ScanState([], None);
    assert ScanPrefix(vals, High, 4.0, 2) == ScanState([], Some(1));
    assert ScanPrefix(vals, High, 4.0, 3) == ScanState([], Some(1));
    assert ScanPrefix(vals, High, 4.0, 4) == ScanState([Span(1, 3)], None);
    assert vals[1..4] == [Some(4.5), Some(4.2), Some(3.8)];
    var known := [4.5, 4.2, 3.8];
    assert forall k :: 0 <= k < 3 ==> vals[1..4][k].Some?;
    assert Known(vals[1..4]).Some? && |Known(vals[1..4]).value| == 3;
    assert Known(vals[1..4]).value[0] == 4.5;
    assert Known(vals[1..4]).value[1] == 4.2;
    assert Known(vals[1..4]).value[2] == 3.8;
    ghost var kv := Known(vals[1..4]).value;
    assert forall k :: 0 <= k < 3 ==> kv[k] == known[k];
    assert kv == known;
    assert Known(vals[1..4]) == Some(known);
    assert known[..2] == [4.5, 4.2] && [4.5, 4.2][..1] == [4.5] && [4.5][..0] == [];
    assert Sum([4.5]) == 4.5;
    assert Sum([4.5, 4.2]) == 8.7;
    assert Sum(known) == 12.5;
    assert MakePeriod(2, 4, vals[1..4]) == Success(MoodPeriod(2, 4, 2, 12.5 / 3.0));
    assert Spans(vals, High, 4.0) == [Span(1, 3)];
    assert PeriodOf(series, Span(1, 3)) == Success(MoodPeriod(2, 4, 2, 12.5 / 3.0));
    BuildPeriodsSnoc(series, [], Span(1, 3), 1);
    BuildPeriodsSnoc(series, [], Span(1, 3), HighMinDuration);
    assert [] + [Span(1, 3)] == [Span(1, 3)];
    assert BuildPeriods(series, [], 1) == Success([]);
    assert BuildPeriods(series, [Span(1, 3)], 1) == Success([] + [MoodPeriod(2, 4, 2, 12.5 / 3.0)]);
    assert [] + [MoodPeriod(2, 4, 2, 12.5 / 3.0)] == [MoodPeriod(2, 4, 2, 12.5 / 3.0)];
  }
}
