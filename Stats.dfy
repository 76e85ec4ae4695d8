/**
 * The statistics engine: daily averages, per-activity and overall mean and
 * spread, the rolling mean, and detection of high- and low-mood periods.
 */
module Stats {
  import opened Wrappers
  import opened Numeric
  import opened Parser

  /** A (date, average mood) pair of average_moods. */
  datatype DayValue = DayValue(day: int, value: real)

  /** A (date, mood) pair whose mood may be NaN (`None`), as rolling_mean produces. */
  datatype DayPoint = DayPoint(day: int, value: Option<real>)

  /** Mean and population variance; the source reports the square root of the variance. */
  datatype Summary = Summary(mean: real, variance: real)

  /** The one unimplemented operation. */
  datatype StatsError = NotImplemented

  /**
   * Why rolling_mean raises: no days at all (the value column does not
   * exist), a window of zero or fewer days (numpy refuses the kernel), or
   * fewer days than the window (the padded column no longer fits).
   */
  datatype RollingError = NoDays | BadWindow(n: int) | TooFewDays(days: int, n: int)

  /** rolling_mean's default window, in days. */
  const Window: int := 5

  // ---------------------------------------------------------------------------
  // average_moods

  /** The calendar dates of the entries, each once, in order of first appearance. */
  function DaysSeen(es: seq<Entry>): seq<int>
  {
    if es == [] then []
    else
      var ds := DaysSeen(es[..|es| - 1]);
      if es[|es| - 1].day in ds then ds else ds + [es[|es| - 1].day]
  }

  /** The levels of the entries made on day `d`, in entry order. */
  function LevelsOn(es: seq<Entry>, d: int): seq<real>
  {
    if es == [] then []
    else LevelsOn(es[..|es| - 1], d) + (if es[|es| - 1].day == d then [es[|es| - 1].level as real] else [])
  }

  /** A day is seen exactly when some entry was made on it, and then it has levels to average. */
  lemma {:induction false} DaysSeenMembership(es: seq<Entry>, d: int)
    ensures d in DaysSeen(es) <==> exists p :: 0 <= p < |es| && es[p].day == d
    ensures d in DaysSeen(es) <==> |LevelsOn(es, d)| > 0
  {
    if es != [] {
      var init := es[..|es| - 1];
      DaysSeenMembership(init, d);
      if exists p :: 0 <= p < |init| && init[p].day == d {
        var p :| 0 <= p < |init| && init[p].day == d;
        assert es[p].day == d;
      }
      if exists p :: 0 <= p < |es| && es[p].day == d {
        var p :| 0 <= p < |es| && es[p].day == d;
        if p < |init| { assert init[p].day == d; }
      }
    }
  }

  /** No day is reported twice. */
  lemma {:induction false} DaysSeenDistinct(es: seq<Entry>)
    ensures forall i, j :: 0 <= i < j < |DaysSeen(es)| ==> DaysSeen(es)[i] != DaysSeen(es)[j]
  {
    if es != [] {
      DaysSeenDistinct(es[..|es| - 1]);
    }
  }

  /**
   * Days are reported in order of first appearance: an entry on a later
   * reported day is preceded by an entry on every earlier reported day.
   */
  lemma {:induction false} DaysSeenOrder(es: seq<Entry>, i: int, j: int, p: int)
    requires 0 <= i < j < |DaysSeen(es)|
    requires 0 <= p < |es| && es[p].day == DaysSeen(es)[j]
    ensures exists q :: 0 <= q < p && es[q].day == DaysSeen(es)[i]
  {
    var init := es[..|es| - 1];
    var ds := DaysSeen(init);
    var last := es[|es| - 1];
    if p < |init| {
      assert init[p] == es[p];
      if j < |ds| {
        DaysSeenOrder(init, i, j, p);
        var q :| 0 <= q < p && init[q].day == ds[i];
        assert es[q] == init[q];
      } else {
        // the day at j was new with the last entry, yet an earlier entry has it
        DaysSeenMembership(init, last.day);
        assert false;
      }
    } else if j < |ds| {
      DaysSeenMembership(init, ds[j]);
      var p' :| 0 <= p' < |init| && init[p'].day == ds[j];
      DaysSeenOrder(init, i, j, p');
      var q :| 0 <= q < p' && init[q].day == ds[i];
      assert es[q] == init[q];
    } else {
      DaysSeenMembership(init, ds[i]);
      var q :| 0 <= q < |init| && init[q].day == ds[i];
      assert es[q] == init[q];
    }
  }

  lemma DaysSeenLevels(es: seq<Entry>)
    ensures forall k :: 0 <= k < |DaysSeen(es)| ==> |LevelsOn(es, DaysSeen(es)[k])| > 0
  {
    forall k | 0 <= k < |DaysSeen(es)| ensures |LevelsOn(es, DaysSeen(es)[k])| > 0 {
      DaysSeenMembership(es, DaysSeen(es)[k]);
    }
  }

  /** average_moods: one (day, mean level of that day) pair per day seen, in first-seen order. */
  function DailyAverages(es: seq<Entry>): seq<DayValue>
  {
    var ds := DaysSeen(es);
    DaysSeenLevels(es);
    seq(|ds|, k requires 0 <= k < |ds| => DayValue(ds[k], Mean(LevelsOn(es, ds[k]))))
  }

  /**
   * The daily averages hold each day that has entries exactly once, and its
   * value is the sum of that day's levels over their number.
   */
  lemma DailyAveragesSpec(es: seq<Entry>, d: int)
    ensures (exists k :: 0 <= k < |DailyAverages(es)| && DailyAverages(es)[k].day == d)
            <==> (exists p :: 0 <= p < |es| && es[p].day == d)
    ensures forall i, j :: 0 <= i < j < |DailyAverages(es)| ==> DailyAverages(es)[i].day != DailyAverages(es)[j].day
    ensures forall k :: 0 <= k < |DailyAverages(es)| && DailyAverages(es)[k].day == d ==>
              |LevelsOn(es, d)| > 0 && DailyAverages(es)[k].value == Sum(LevelsOn(es, d)) / |LevelsOn(es, d)| as real
  {
    DaysSeenMembership(es, d);
    DaysSeenDistinct(es);
    var ds := DaysSeen(es);
    if d in ds {
      var k :| 0 <= k < |ds| && ds[k] == d;
      assert DailyAverages(es)[k].day == d;
    }
    DaysSeenLevels(es);
  }

  predicate LevelsWithin(es: seq<Entry>, lo: int, hi: int)
  {
    forall p :: 0 <= p < |es| ==> lo <= es[p].level <= hi
  }

  lemma {:induction false} LevelsOnWithin(es: seq<Entry>, d: int, lo: int, hi: int)
    requires LevelsWithin(es, lo, hi)
    ensures AllWithin(LevelsOn(es, d), lo as real, hi as real)
  {
    if es != [] {
      var init := es[..|es| - 1];
      assert LevelsWithin(init, lo, hi) by {
        forall p | 0 <= p < |init| ensures lo <= init[p].level <= hi { assert init[p] == es[p]; }
      }
      LevelsOnWithin(init, d, lo, hi);
    }
  }

  /** When every level lies in lo..hi, so does every daily average. */
  lemma DailyAveragesWithin(es: seq<Entry>, lo: int, hi: int)
    requires LevelsWithin(es, lo, hi)
    ensures forall k :: 0 <= k < |DailyAverages(es)| ==>
              lo as real <= DailyAverages(es)[k].value <= hi as real
  {
    DaysSeenLevels(es);
    forall k | 0 <= k < |DailyAverages(es)|
      ensures lo as real <= DailyAverages(es)[k].value <= hi as real
    {
      var d := DaysSeen(es)[k];
      LevelsOnWithin(es, d, lo, hi);
      MeanBounds(LevelsOn(es, d), lo as real, hi as real);
    }
  }

  /** Group the levels by day with a dictionary kept in insertion order, then average each group. */
  method AverageMoods(es: seq<Entry>) returns (r: seq<DayValue>)
    ensures r == DailyAverages(es)
  {
    var keys: seq<int> := [];
    var groups: map<int, seq<real>> := map[];
    var i := 0;
    while i < |es|
      invariant 0 <= i <= |es|
      invariant keys == DaysSeen(es[..i])
      invariant forall d :: d in groups <==> d in keys
      invariant forall d :: d in groups ==> groups[d] == LevelsOn(es[..i], d)
    {
      var e := es[i];
      assert es[..i + 1][..i] == es[..i];
      if e.day !in groups {
        DaysSeenMembership(es[..i], e.day);
        keys := keys + [e.day];
        groups := groups[e.day := []];
      }
      groups := groups[e.day := groups[e.day] + [e.level as real]];
      i := i + 1;
    }
    assert es[..|es|] == es;
    DaysSeenLevels(es);
    r := [];
    var k := 0;
    while k < |keys|
      invariant 0 <= k <= |keys|
      invariant r == DailyAverages(es)[..k]
    {
      r := r + [DayValue(keys[k], Mean(groups[keys[k]]))];
      k := k + 1;
    }
  }

  // ---------------------------------------------------------------------------
  // activity_moods and mean

  /** One copy of `level` per occurrence of `a` among an entry's activities. */
  function Occurrences(acts: seq<string>, a: string, level: real): seq<real>
  {
    if acts == [] then []
    else Occurrences(acts[..|acts| - 1], a, level) + (if acts[|acts| - 1] == a then [level] else [])
  }

  /** The levels collected for activity `a`: each entry's level once per listing of `a`. */
  function ActivityLevels(es: seq<Entry>, a: string): seq<real>
  {
    if es == [] then []
    else ActivityLevels(es[..|es| - 1], a) + Occurrences(es[|es| - 1].activities, a, es[|es| - 1].level as real)
  }

  function Named(acts: seq<string>): (names: set<string>)
    ensures forall a :: a in names <==> a in acts
  {
    set k | 0 <= k < |acts| :: acts[k]
  }

  /** Every activity named by some entry. */
  function ActivitiesIn(es: seq<Entry>): set<string>
  {
    if es == [] then {} else ActivitiesIn(es[..|es| - 1]) + Named(es[|es| - 1].activities)
  }

  lemma {:induction false} OccurrencesSpec(acts: seq<string>, a: string, level: real)
    ensures |Occurrences(acts, a, level)| > 0 <==> a in acts
    ensures AllEqual(Occurrences(acts, a, level), level)
  {
    if acts != [] {
      var init := acts[..|acts| - 1];
      OccurrencesSpec(init, a, level);
      assert acts == init + [acts[|acts| - 1]];
    }
  }

  lemma {:induction false} ActivityLevelsEmpty(es: seq<Entry>, a: string)
    requires a !in ActivitiesIn(es)
    ensures ActivityLevels(es, a) == []
  {
    if es != [] {
      ActivityLevelsEmpty(es[..|es| - 1], a);
      OccurrencesSpec(es[|es| - 1].activities, a, es[|es| - 1].level as real);
    }
  }

  /** Each occurrence of the activity contributes the level once. */
  lemma {:induction false} OccurrencesListed(acts: seq<string>, a: string, level: real)
    requires a in acts
    ensures level in Occurrences(acts, a, level)
  {
    var init := acts[..|acts| - 1];
    if acts[|acts| - 1] != a {
      assert acts == init + [acts[|acts| - 1]];
      OccurrencesListed(init, a, level);
    }
  }

  /** Conversely to ActivityLevelsSpec: every entry listing the activity contributes its level. */
  lemma {:induction false} ActivityLevelsComplete(es: seq<Entry>, a: string, p: int)
    requires 0 <= p < |es| && a in es[p].activities
    ensures es[p].level as real in ActivityLevels(es, a)
  {
    var init := es[..|es| - 1];
    if p == |es| - 1 {
      OccurrencesListed(es[p].activities, a, es[p].level as real);
    } else {
      assert init[p] == es[p];
      ActivityLevelsComplete(init, a, p);
    }
  }

  /**
   * The activities collected are those some entry names, each with at least one
   * level, and every collected level is the level of an entry naming it.
   */
  lemma {:induction false} ActivityLevelsSpec(es: seq<Entry>, a: string)
    ensures a in ActivitiesIn(es) <==> exists p :: 0 <= p < |es| && a in es[p].activities
    ensures a in ActivitiesIn(es) <==> |ActivityLevels(es, a)| > 0
    ensures forall x :: x in ActivityLevels(es, a) ==>
              exists p :: 0 <= p < |es| && a in es[p].activities && x == es[p].level as real
  {
    if es != [] {
      var init := es[..|es| - 1];
      var last := es[|es| - 1];
      ActivityLevelsSpec(init, a);
      OccurrencesSpec(last.activities, a, last.level as real);
      if exists p :: 0 <= p < |init| && a in init[p].activities {
        var p :| 0 <= p < |init| && a in init[p].activities;
        assert es[p] == init[p];
      }
      if exists p :: 0 <= p < |es| && a in es[p].activities {
        var p :| 0 <= p < |es| && a in es[p].activities;
        if p < |init| { assert init[p] == es[p]; }
      }
      forall x | x in ActivityLevels(es, a)
        ensures exists p :: 0 <= p < |es| && a in es[p].activities && x == es[p].level as real
      {
        if x in ActivityLevels(init, a) {
          var p :| 0 <= p < |init| && a in init[p].activities && x == init[p].level as real;
          assert es[p] == init[p];
        } else {
          var occ := Occurrences(last.activities, a, last.level as real);
          assert x in occ;
          var m :| 0 <= m < |occ| && occ[m] == x;
          assert |es| - 1 < |es| && a in es[|es| - 1].activities;
        }
      }
    }
  }

  /** activity_moods: for every activity named, the mean and variance of its collected levels. */
  function ActivityStats(es: seq<Entry>): map<string, Summary>
  {
    map a | a in ActivitiesIn(es) ::
      ActivityLevelsSpec(es, a);
      Summary(Mean(ActivityLevels(es, a)), Variance(ActivityLevels(es, a)))
  }

  /** An activity whose entries all have one level has that level as mean and spread zero. */
  lemma SingleLevelActivity(es: seq<Entry>, a: string, c: int)
    requires a in ActivitiesIn(es)
    requires forall p :: 0 <= p < |es| && a in es[p].activities ==> es[p].level == c
    ensures ActivityStats(es)[a] == Summary(c as real, 0.0)
  {
    var xs := ActivityLevels(es, a);
    ActivityLevelsSpec(es, a);
    forall k | 0 <= k < |xs| ensures xs[k] == c as real {
      assert xs[k] in xs;
    }
    ConstantSummary(xs, c as real);
  }

  /** The spread reported for an activity is never negative. */
  lemma ActivityVarianceNonNegative(es: seq<Entry>, a: string)
    requires a in ActivitiesIn(es)
    ensures ActivityStats(es)[a].variance >= 0.0
  {
    ActivityLevelsSpec(es, a);
    VarianceNonNegative(ActivityLevels(es, a));
  }

  /** `d.setdefault(a, []).append(x)` on a dictionary of lists. */
  function SetDefaultAppend(g: map<string, seq<real>>, a: string, x: real): map<string, seq<real>>
  {
    if a in g then g[a := g[a] + [x]] else g[a := [x]]
  }

  /** setdefault followed by append, written as two dictionary updates. */
  lemma SetDefaultAppendSpec(g0: map<string, seq<real>>, a: string, x: real, g: map<string, seq<real>>)
    requires var g1 := if a in g0 then g0 else g0[a := []]; g == g1[a := g1[a] + [x]]
    ensures g == SetDefaultAppend(g0, a, x)
  {
    if a !in g0 {
      assert [] + [x] == [x];
    }
  }

  /** The dictionary after collecting the entries `done` and the activities `acts` of one more entry. */
  ghost predicate Collected(g: map<string, seq<real>>, done: seq<Entry>, acts: seq<string>, level: real)
  {
    && g.Keys == ActivitiesIn(done) + Named(acts)
    && forall a :: a in g ==> g[a] == ActivityLevels(done, a) + Occurrences(acts, a, level)
  }

  lemma CollectStep(g: map<string, seq<real>>, done: seq<Entry>, acts: seq<string>, j: int, level: real)
    requires 0 <= j < |acts| && Collected(g, done, acts[..j], level)
    ensures Collected(SetDefaultAppend(g, acts[j], level), done, acts[..j + 1], level)
  {
    var g' := SetDefaultAppend(g, acts[j], level);
    NamedSnoc(acts, j);
    SetDefaultAppendKeys(g, acts[j], level);
    assert g'.Keys == ActivitiesIn(done) + Named(acts[..j + 1]);
    forall b | b in g'
      ensures g'[b] == ActivityLevels(done, b) + Occurrences(acts[..j + 1], b, level)
    {
      CollectValue(g, done, acts, j, level, b);
    }
  }

  lemma SetDefaultAppendKeys(g: map<string, seq<real>>, a: string, x: real)
    ensures SetDefaultAppend(g, a, x).Keys == g.Keys + {a}
  {
  }

  lemma CollectValue(g: map<string, seq<real>>, done: seq<Entry>, acts: seq<string>, j: int, level: real, b: string)
    requires 0 <= j < |acts| && Collected(g, done, acts[..j], level)
    requires b in SetDefaultAppend(g, acts[j], level)
    ensures SetDefaultAppend(g, acts[j], level)[b] == ActivityLevels(done, b) + Occurrences(acts[..j + 1], b, level)
  {
    var a := acts[j];
    var g' := SetDefaultAppend(g, a, level);
    OccurrencesSnoc(acts, j, b, level);
    var before := Occurrences(acts[..j], b, level);
    if b != a {
      assert g'[b] == g[b];
      assert before + [] == before;
    } else if a in g {
      assert g'[a] == g[a] + [level];
      assert ActivityLevels(done, a) + before + [level] == ActivityLevels(done, a) + (before + [level]);
    } else {
      assert a !in ActivitiesIn(done);
      assert a !in acts[..j];
      ActivityLevelsEmpty(done, a);
      OccurrencesSpec(acts[..j], a, level);
      assert g'[a] == [level];
    }
  }

  /** The inner loop of activity_moods: append one entry's level under each activity it names. */
  method CollectActivities(groups: map<string, seq<real>>, e: Entry, ghost done: seq<Entry>)
    returns (g: map<string, seq<real>>)
    requires Collected(groups, done, [], e.level as real)
    ensures Collected(g, done, e.activities, e.level as real)
  {
    g := groups;
    var j := 0;
    while j < |e.activities|
      invariant 0 <= j <= |e.activities|
      invariant Collected(g, done, e.activities[..j], e.level as real)
    {
      var a := e.activities[j];
      CollectStep(g, done, e.activities, j, e.level as real);
      ghost var g0 := g;
      if a !in g {
        g := g[a := []];
      }
      g := g[a := g[a] + [e.level as real]];
      SetDefaultAppendSpec(g0, a, e.level as real, g);
      j := j + 1;
    }
    assert e.activities[..j] == e.activities;
  }

  lemma ActivityLevelsSnoc(done: seq<Entry>, e: Entry)
    ensures ActivitiesIn(done + [e]) == ActivitiesIn(done) + Named(e.activities)
    ensures forall a :: ActivityLevels(done + [e], a)
                        == ActivityLevels(done, a) + Occurrences(e.activities, a, e.level as real)
  {
    assert (done + [e])[..|done|] == done;
  }

  lemma NamedSnoc(acts: seq<string>, j: int)
    requires 0 <= j < |acts|
    ensures Named(acts[..j + 1]) == Named(acts[..j]) + {acts[j]}
  {
    assert acts[..j + 1] == acts[..j] + [acts[j]];
  }

  lemma OccurrencesSnoc(acts: seq<string>, j: int, a: string, level: real)
    requires 0 <= j < |acts|
    ensures Occurrences(acts[..j + 1], a, level)
            == Occurrences(acts[..j], a, level) + (if acts[j] == a then [level] else [])
  {
    assert acts[..j + 1][..j] == acts[..j];
  }

  /** Build the activity -> levels dictionary entry by entry, then summarise each activity. */
  method ActivityMoods(es: seq<Entry>) returns (r: map<string, Summary>)
    ensures r == ActivityStats(es)
  {
    var groups: map<string, seq<real>> := map[];
    var i := 0;
    while i < |es|
      invariant 0 <= i <= |es|
      invariant groups.Keys == ActivitiesIn(es[..i])
      invariant forall a :: a in groups ==> groups[a] == ActivityLevels(es[..i], a)
    {
      assert es[..i + 1] == es[..i] + [es[i]];
      assert Named([]) == {};
      groups := CollectActivities(groups, es[i], es[..i]);
      ActivityLevelsSnoc(es[..i], es[i]);
      i := i + 1;
    }
    assert es[..|es|] == es;
    forall a | a in groups ensures |groups[a]| > 0 {
      ActivityLevelsSpec(es, a);
    }
    r := map a | a in groups :: Summary(Mean(groups[a]), Variance(groups[a]));
  }

  /** The levels of all entries, in order. */
  function EntryLevels(es: seq<Entry>): seq<real>
  {
    seq(|es|, p requires 0 <= p < |es| => es[p].level as real)
  }

  /**
   * mean: mean and variance of all levels, unweighted by day; NaN (`None`)
   * without entries.
   */
  function OverallStats(es: seq<Entry>): (r: Option<Summary>)
    ensures r.None? <==> es == []
    ensures r.Some? ==> r.value.variance >= 0.0
    ensures r.Some? && LevelsWithin(es, 1, 5) ==> 1.0 <= r.value.mean <= 5.0
  {
    if es == [] then None
    else
      var xs := EntryLevels(es);
      VarianceNonNegative(xs);
      assert LevelsWithin(es, 1, 5) ==> 1.0 <= Mean(xs) <= 5.0 by {
        if LevelsWithin(es, 1, 5) { MeanBounds(xs, 1.0, 5.0); }
      }
      Some(Summary(Mean(xs), Variance(xs)))
  }

  // ---------------------------------------------------------------------------
  // rolling_mean

  function Values(avg: seq<DayValue>): (vs: seq<real>)
    ensures |vs| == |avg| && forall k :: 0 <= k < |avg| ==> vs[k] == avg[k].value
  {
    seq(|avg|, k requires 0 <= k < |avg| => avg[k].value)
  }

  /**
   * The smoothed series: same dates, NaN for the first n - 1, then the mean of
   * the last n daily values rounded to two decimals.
   */
  function Smoothed(avg: seq<DayValue>, n: int): seq<DayPoint>
    requires 1 <= n <= |avg|
  {
    seq(|avg|, i requires 0 <= i < |avg| =>
      DayPoint(avg[i].day, if i < n - 1 then None else Some(Round2(Mean(Values(avg)[i - n + 1..i + 1])))))
  }

  /**
   * The smoothed series keeps every date and its length; exactly its first
   * n - 1 values are NaN; with daily values in lo..hi the rest stay in lo..hi.
   */
  lemma SmoothedSpec(avg: seq<DayValue>, n: int, lo: int, hi: int)
    requires 1 <= n <= |avg|
    requires forall k :: 0 <= k < |avg| ==> lo as real <= avg[k].value <= hi as real
    ensures |Smoothed(avg, n)| == |avg|
    ensures forall i :: 0 <= i < |avg| ==> Smoothed(avg, n)[i].day == avg[i].day
    ensures forall i :: 0 <= i < |avg| ==> (Smoothed(avg, n)[i].value.None? <==> i < n - 1)
    ensures forall i :: n - 1 <= i < |avg| ==>
              lo as real <= Smoothed(avg, n)[i].value.value <= hi as real
  {
    forall i | n - 1 <= i < |avg|
      ensures lo as real <= Smoothed(avg, n)[i].value.value <= hi as real
    {
      var w := Values(avg)[i - n + 1..i + 1];
      assert AllWithin(w, lo as real, hi as real) by {
        forall k | 0 <= k < |w| ensures lo as real <= w[k] <= hi as real {
          assert w[k] == avg[i - n + 1 + k].value;
        }
      }
      MeanBounds(w, lo as real, hi as real);
      Round2Within(Mean(w), lo, hi);
    }
  }

  lemma SumSnoc(xs: seq<real>, k: int, m: int)
    requires 0 <= k <= k + m < |xs|
    ensures Sum(xs[k..k + m + 1]) == Sum(xs[k..k + m]) + xs[k + m]
  {
    assert xs[k..k + m + 1][..m] == xs[k..k + m];
  }

  /** One output of the convolution: the n values from k on, each weighted 1/n. */
  method WindowMean(values: seq<real>, k: int, n: int) returns (acc: real)
    requires 1 <= n && 0 <= k && k + n <= |values|
    ensures acc == Mean(values[k..k + n])
  {
    var w := 1.0 / n as real;
    acc := 0.0;
    var m := 0;
    while m < n
      invariant 0 <= m <= n
      invariant acc == Sum(values[k..k + m]) * w
    {
      SumSnoc(values, k, m);
      Distribute(Sum(values[k..k + m]), values[k + m], w);
      acc := acc + values[k + m] * w;
      m := m + 1;
    }
    Reciprocal(Sum(values[k..k + n]), n as real);
  }

  lemma Distribute(a: real, b: real, w: real)
    ensures (a + b) * w == a * w + b * w
  {
  }

  lemma Reciprocal(a: real, n: real)
    requires n > 0.0
    ensures a * (1.0 / n) == a / n
  {
  }

  /** np.convolve(values, ones(n) / n, "valid"): the mean of every window of n consecutive values. */
  method Convolve(values: seq<real>, n: int) returns (filtered: seq<real>)
    requires 1 <= n <= |values|
    ensures |filtered| == |values| - n + 1
    ensures forall j :: 0 <= j < |filtered| ==> filtered[j] == Mean(values[j..j + n])
  {
    filtered := [];
    var k := 0;
    while k <= |values| - n
      invariant 0 <= k <= |values| - n + 1
      invariant |filtered| == k
      invariant forall j :: 0 <= j < k ==> filtered[j] == Mean(values[j..j + n])
    {
      var m := WindowMean(values, k, n);
      filtered := filtered + [m];
      k := k + 1;
    }
  }

  /**
   * Convolve, round to two decimals, pad with n - 1 NaNs at the front and
   * write the result over the value column of the (date, value) data.
   */
  method Smooth(avg: seq<DayValue>, n: int) returns (r: seq<DayPoint>)
    requires 1 <= n <= |avg|
    ensures r == Smoothed(avg, n)
  {
    var filtered := Convolve(Values(avg), n);
    var data := new DayPoint[|avg|](i requires 0 <= i < |avg| => DayPoint(avg[i].day, Some(avg[i].value)));
    var i := 0;
    while i < |avg|
      invariant 0 <= i <= |avg|
      invariant forall j :: 0 <= j < i ==> data[j] == Smoothed(avg, n)[j]
      invariant forall j :: i <= j < |avg| ==> data[j].day == avg[j].day
    {
      data[i] := DayPoint(data[i].day, if i < n - 1 then None else Some(Round2(filtered[i - (n - 1)])));
      i := i + 1;
    }
    r := data[..];
  }

  /**
   * rolling_mean(N): the smoothed daily averages of the entries, or the error
   * raised first: no days, then a window below one day, then too few days.
   */
  method RollingMean(es: seq<Entry>, n: int := Window) returns (r: Result<seq<DayPoint>, RollingError>)
    ensures |DaysSeen(es)| == 0 ==> r == Failure(NoDays)
    ensures |DaysSeen(es)| > 0 && n <= 0 ==> r == Failure(BadWindow(n))
    ensures 0 < |DaysSeen(es)| < n ==> r == Failure(TooFewDays(|DaysSeen(es)|, n))
    ensures 1 <= n <= |DaysSeen(es)| ==> r == Success(Smoothed(DailyAverages(es), n))
  {
    var avg := AverageMoods(es);
    if |avg| == 0 {
      return Failure(NoDays);
    }
    if n <= 0 {
      return Failure(BadWindow(n));
    }
    if |avg| < n {
      return Failure(TooFewDays(|avg|, n));
    }
    var smoothed := Smooth(avg, n);
    return Success(smoothed);
  }

  /** The five daily averages of the documented export, smoothed over five days: four NaNs, then 4.18. */
  lemma RollingMeanExample()
    ensures var avg := [DayValue(0, 2.0), DayValue(2, 4.3), DayValue(3, 4.6), DayValue(4, 5.0), DayValue(5, 5.0)];
            Smoothed(avg, 5) == [DayPoint(0, None), DayPoint(2, None), DayPoint(3, None), DayPoint(4, None),
                                 DayPoint(5, Some(4.18))]
  {
    var avg := [DayValue(0, 2.0), DayValue(2, 4.3), DayValue(3, 4.6), DayValue(4, 5.0), DayValue(5, 5.0)];
    var w := Values(avg)[0..5];
    assert w == [2.0, 4.3, 4.6, 5.0, 5.0];
    assert Sum([2.0]) == 2.0 by { assert [2.0][..0] == []; }
    assert Sum([2.0, 4.3]) == 6.3 by { assert [2.0, 4.3][..1] == [2.0]; }
    assert Sum([2.0, 4.3, 4.6]) == 10.9 by { assert [2.0, 4.3, 4.6][..2] == [2.0, 4.3]; }
    assert Sum([2.0, 4.3, 4.6, 5.0]) == 15.9 by { assert [2.0, 4.3, 4.6, 5.0][..3] == [2.0, 4.3, 4.6]; }
    assert Sum(w) == 20.9 by { assert w[..4] == [2.0, 4.3, 4.6, 5.0]; }
    assert Mean(w) == 4.18;
    assert RoundHalfEven(418.0) == 418;
  }

  // ---------------------------------------------------------------------------
  // stability and stability_by_month

  /** stability raises NotImplementedError before computing anything. */
  function Stability(levels: seq<real>): (r: Result<int, StatsError>)
    ensures r.Failure? && r.error == NotImplemented
  {
    Failure(NotImplemented)
  }

  /** stability_by_month raises NotImplementedError before grouping anything. */
  function StabilityByMonth(es: seq<Entry>): (r: Result<seq<DayValue>, StatsError>)
    ensures r.Failure? && r.error == NotImplemented
  {
    Failure(NotImplemented)
  }
}
