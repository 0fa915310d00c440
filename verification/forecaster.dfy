/** The daily demand forecaster: the daily series of totals, the weighted
    moving-average base, the weekday pattern and the forecast rows.

    Dates are day numbers counted from 1970-01-01 (a Thursday); parsing the
    day-first date strings is not part of the model. The noise of each
    forecast day is a standard normal draw supplied by the caller, scaled as
    the source scales it. */
module Forecaster {
  import opened Common
  import opened Grouping

  /** (date, total) pairs. */
  type Series = seq<(int, real)>

  predicate IntLess(a: int, b: int) {
    a < b
  }

  lemma IntLessOrder()
    ensures StrictOrder(IntLess)
  {
  }

  // ---------------------------------------------------------------------------
  // Sums and means

  function Sum(xs: seq<real>): real {
    if |xs| == 0 then 0.0 else Sum(xs[..|xs| - 1]) + xs[|xs| - 1]
  }

  function Mean(xs: seq<real>): real
    requires |xs| > 0
  {
    Sum(xs) / (|xs| as real)
  }

  /** The last n elements, or all of them when there are fewer (Series.tail). */
  function Tail(xs: seq<real>, n: nat): (r: seq<real>)
    ensures |r| == if |xs| <= n then |xs| else n
    ensures forall i :: 0 <= i < |r| ==> r[i] == xs[|xs| - |r| + i]
  {
    if |xs| <= n then xs else xs[|xs| - n..]
  }

  function Values(series: Series): (vs: seq<real>)
    ensures |vs| == |series|
    ensures forall i :: 0 <= i < |vs| ==> vs[i] == series[i].1
  {
    seq(|series|, i requires 0 <= i < |series| => series[i].1)
  }

  lemma {:induction false} SumConstant(xs: seq<real>, c: real)
    requires forall i :: 0 <= i < |xs| ==> xs[i] == c
    ensures Sum(xs) == c * (|xs| as real)
    decreases |xs|
  {
    if |xs| > 0 {
      SumConstant(xs[..|xs| - 1], c);
    }
  }

  lemma {:induction false} SumBounds(xs: seq<real>, lo: real, hi: real)
    requires forall i :: 0 <= i < |xs| ==> lo <= xs[i] <= hi
    ensures lo * (|xs| as real) <= Sum(xs) <= hi * (|xs| as real)
    decreases |xs|
  {
    if |xs| > 0 {
      SumBounds(xs[..|xs| - 1], lo, hi);
    }
  }

  lemma MeanConstant(xs: seq<real>, c: real)
    requires |xs| > 0 && forall i :: 0 <= i < |xs| ==> xs[i] == c
    ensures Mean(xs) == c
  {
    SumConstant(xs, c);
  }

  lemma MeanBounds(xs: seq<real>, lo: real, hi: real)
    requires |xs| > 0 && forall i :: 0 <= i < |xs| ==> lo <= xs[i] <= hi
    ensures lo <= Mean(xs) <= hi
  {
    SumBounds(xs, lo, hi);
    var n := |xs| as real;
    assert Mean(xs) * n == Sum(xs);
  }

  // ---------------------------------------------------------------------------
  // prepare_time_series

  /** groupby('date')[total].sum(), sorted by date. */
  function PrepareTimeSeries(rows: seq<(int, real)>): (series: Series)
    ensures |series| <= |rows|
    ensures |rows| > 0 ==> |series| > 0
    ensures forall i, j :: 0 <= i < j < |series| ==> series[i].0 < series[j].0
  {
    var gs := GroupBy(rows, IntLess);
    IntLessOrder();
    GroupByAscending(rows, IntLess);
    seq(|gs|, i requires 0 <= i < |gs| => (gs[i].key, gs[i].sum))
  }

  predicate HasDate(series: Series, d: int) {
    exists i :: 0 <= i < |series| && series[i].0 == d
  }

  function SeriesTotal(series: Series): real {
    Sum(Values(series))
  }

  /** Each date of the series carries the sum of that date's rows, the
      series has a date exactly when some row does, and nothing is lost. */
  lemma PrepareTimeSeriesContents(rows: seq<(int, real)>, d: int)
    ensures HasDate(PrepareTimeSeries(rows), d) <==> CountOf(rows, d) > 0
    ensures forall i :: 0 <= i < |PrepareTimeSeries(rows)| ==>
      PrepareTimeSeries(rows)[i].1 == SumOf(rows, PrepareTimeSeries(rows)[i].0)
  {
    var gs := GroupBy(rows, IntLess);
    var series := PrepareTimeSeries(rows);
    IntLessOrder();
    GroupByContents(rows, IntLess, d);
    if HasGroup(gs, d) {
      var i :| 0 <= i < |gs| && gs[i].key == d;
      assert series[i].0 == d;
    }
    if HasDate(series, d) {
      var i :| 0 <= i < |series| && series[i].0 == d;
      assert gs[i].key == d;
    }
    forall i | 0 <= i < |series| ensures series[i].1 == SumOf(rows, series[i].0) {
      GroupByCountPositive(rows, IntLess, i);
    }
  }

  /** The series keeps the grand total of the rows. */
  lemma PrepareTimeSeriesTotal(rows: seq<(int, real)>)
    ensures SeriesTotal(PrepareTimeSeries(rows)) == Total(rows)
  {
    var gs := GroupBy(rows, IntLess);
    GroupByTotal(rows, IntLess);
    SumOfGroups(gs);
    assert Values(PrepareTimeSeries(rows)) == seq(|gs|, i requires 0 <= i < |gs| => gs[i].sum);
  }

  /** Helper for PrepareTimeSeriesTotal: the date-and-sum view of groups has
      the groups' total. */
  lemma {:induction false} SumOfGroups(gs: seq<Group<int>>)
    ensures Sum(seq(|gs|, i requires 0 <= i < |gs| => gs[i].sum)) == GroupTotal(gs)
    decreases |gs|
  {
    var sums := seq(|gs|, i requires 0 <= i < |gs| => gs[i].sum);
    if |gs| > 0 {
      var tail := seq(|gs| - 1, i requires 0 <= i < |gs| - 1 => gs[1..][i].sum);
      SumOfGroups(gs[1..]);
      SumCons(sums);
      assert sums[1..] == tail;
    }
  }

  /** Summing from the front equals summing from the back. */
  lemma {:induction false} SumCons(xs: seq<real>)
    requires |xs| > 0
    ensures Sum(xs) == xs[0] + Sum(xs[1..])
    decreases |xs|
  {
    if |xs| > 1 {
      SumCons(xs[..|xs| - 1]);
      assert xs[..|xs| - 1][1..] == xs[1..][..|xs| - 2];
    }
  }

  // ---------------------------------------------------------------------------
  // simple_forecast

  /** 0.6 * mean(last 7) + 0.4 * mean(last 30). */
  function Base(series: Series): real
    requires |series| > 0
  {
    var vs := Values(series);
    0.6 * Mean(Tail(vs, 7)) + 0.4 * Mean(Tail(vs, 30))
  }

  /** pandas' dayofweek: Monday is 0; day 0 (1970-01-01) was a Thursday. */
  function DayOfWeek(d: int): (w: int)
    ensures 0 <= w < 7
  {
    (d + 3) % 7
  }

  /** The rows (weekday, total) that the weekly pattern groups. */
  function WeekdayRows(series: Series): (rows: seq<(int, real)>)
    ensures |rows| == |series|
    ensures forall i :: 0 <= i < |rows| ==> rows[i] == (DayOfWeek(series[i].0), series[i].1)
  {
    seq(|series|, i requires 0 <= i < |series| => (DayOfWeek(series[i].0), series[i].1))
  }

  function WeekdayGroups(series: Series): seq<Group<int>> {
    GroupBy(WeekdayRows(series), IntLess)
  }

  lemma WeekdayGroupsPositive(series: Series)
    ensures NonEmptyGroups(WeekdayGroups(series))
  {
    IntLessOrder();
    GroupByNonEmpty(WeekdayRows(series), IntLess);
  }

  /** The mean total of each weekday present, in weekday order. */
  function GroupMeans(gs: seq<Group<int>>): (ms: seq<real>)
    requires NonEmptyGroups(gs)
    ensures |ms| == |gs|
    ensures forall i :: 0 <= i < |ms| ==> ms[i] * (gs[i].count as real) == gs[i].sum
  {
    seq(|gs|, i requires 0 <= i < |gs| => gs[i].sum / (gs[i].count as real))
  }

  /** groupby('dayofweek')['total'].mean(). */
  function WeekdayMeans(series: Series): (ms: seq<real>)
    ensures |ms| == |WeekdayGroups(series)|
    ensures forall i :: 0 <= i < |ms| ==>
      WeekdayGroups(series)[i].count > 0 && ms[i] * (WeekdayGroups(series)[i].count as real) == WeekdayGroups(series)[i].sum
  {
    WeekdayGroupsPositive(series);
    GroupMeans(WeekdayGroups(series))
  }

  /** weekly_pattern.mean(): the unweighted mean of the weekday means. */
  function Normaliser(series: Series): real
    requires |series| > 0
  {
    Mean(WeekdayMeans(series))
  }

  /** Daily totals are sums of counts, so none is negative. */
  predicate NonNegative(series: Series) {
    forall i :: 0 <= i < |series| ==> series[i].1 >= 0.0
  }

  /** weekly_pattern.get(weekday, 1.0) after normalisation. None is NaN: it
      arises when the weekday means have mean 0, which for non-negative
      totals makes every weekday mean 0, so the division is 0 / 0
      (ZeroNormaliserFactor). */
  function Factor(series: Series, w: int): Option<real>
    requires |series| > 0 && NonNegative(series)
  {
    var gs := WeekdayGroups(series);
    if HasGroup(gs, w) then
      var norm := Normaliser(series);
      if norm == 0.0 then None
      else
        IntLessOrder();
        GroupByContents(WeekdayRows(series), IntLess, w);
        Some(GroupSum(gs, w) / (GroupCount(gs, w) as real) / norm)
    else Some(1.0)
  }

  /** max(0, base * factor + noise), where the noise is normal with standard
      deviation base * 0.05 and `draw` is the standard normal draw. Python's
      max(0, x) is 0 when x is NaN. */
  function ForecastValue(base: real, factor: Option<real>, draw: real): (f: real)
    ensures f >= 0.0
    ensures factor.None? ==> f == 0.0
    ensures factor.Some? ==> (f == 0.0 || f == base * factor.value + base * 0.05 * draw)
    ensures factor.Some? && base * factor.value + base * 0.05 * draw > 0.0 ==> f > 0.0
  {
    match factor
    case None => 0.0
    case Some(x) =>
      var v := base * x + base * 0.05 * draw;
      if v > 0.0 then v else 0.0
  }

  function LastDate(series: Series): (d: int)
    requires |series| > 0
    ensures forall i :: 0 <= i < |series| ==> series[i].0 <= d
    ensures HasDate(series, d)
  {
    if |series| == 1 then series[0].0
    else
      var m := LastDate(series[..|series| - 1]);
      var x := series[|series| - 1].0;
      assert forall i :: 0 <= i < |series| - 1 ==> series[i] == series[..|series| - 1][i];
      if x > m then x else m
  }

  datatype ForecastRow = ForecastRow(date: int, forecast: real, lower: real, upper: real)

  function ForecastAt(series: Series, draws: seq<real>, i: nat): (row: ForecastRow)
    requires |series| > 0 && NonNegative(series) && i < |draws|
    ensures row.date == LastDate(series) + 1 + i
    ensures row.forecast == ForecastValue(Base(series), Factor(series, DayOfWeek(row.date)), draws[i])
    ensures 0.0 <= row.lower <= row.forecast <= row.upper
    ensures row.lower == 0.8 * row.forecast && row.upper == 1.2 * row.forecast
  {
    var date := LastDate(series) + 1 + i;
    var f := ForecastValue(Base(series), Factor(series, DayOfWeek(date)), draws[i]);
    ForecastRow(date, f, f * 0.8, f * 1.2)
  }

  /** simple_forecast. It fails where the source raises: with no last date to
      start from, and with a negative number of days. The source also raises
      when a noise draw is requested with a negative standard deviation; that
      cannot happen here, because the base of non-negative totals is
      non-negative (BaseNonNegative). */
  function SimpleForecast(series: Series, days: int, draws: seq<real>): (r: Result<seq<ForecastRow>>)
    requires NonNegative(series) && |draws| >= days
    ensures r.Success? <==> |series| > 0 && days >= 0
    ensures r.Success? ==> |r.value| == days
    ensures r.Success? ==> forall i :: 0 <= i < |r.value| ==>
      r.value[i].date == LastDate(series) + 1 + i &&
      0.0 <= r.value[i].lower <= r.value[i].forecast <= r.value[i].upper &&
      r.value[i].lower == 0.8 * r.value[i].forecast && r.value[i].upper == 1.2 * r.value[i].forecast
    ensures r.Success? ==> forall i :: 0 <= i < |r.value| ==> r.value[i] == ForecastAt(series, draws, i)
  {
    if |series| == 0 then Failure("the series has no last date")
    else if days < 0 then Failure("a negative number of periods")
    else Success(seq(days, i requires 0 <= i < days => ForecastAt(series, draws, i)))
  }

  // ---------------------------------------------------------------------------
  // Properties

  /** A constant series has the constant as its base. */
  lemma BaseOfConstant(series: Series, c: real)
    requires |series| > 0 && forall i :: 0 <= i < |series| ==> series[i].1 == c
    ensures Base(series) == c
  {
    var vs := Values(series);
    MeanConstant(Tail(vs, 7), c);
    MeanConstant(Tail(vs, 30), c);
  }

  /** The base lies between the smallest and the largest of the last 30
      totals. */
  lemma BaseBounds(series: Series, lo: real, hi: real)
    requires |series| > 0
    requires forall i :: 0 <= i < |series| && |series| - 30 <= i ==> lo <= series[i].1 <= hi
    ensures lo <= Base(series) <= hi
  {
    var vs := Values(series);
    MeanBounds(Tail(vs, 7), lo, hi);
    MeanBounds(Tail(vs, 30), lo, hi);
  }

  /** A weekday that never occurs in the series has factor 1. */
  lemma AbsentWeekdayFactor(series: Series, w: int)
    requires |series| > 0 && NonNegative(series)
    requires forall i :: 0 <= i < |series| ==> DayOfWeek(series[i].0) != w
    ensures Factor(series, w) == Some(1.0)
  {
    IntLessOrder();
    GroupByContents(WeekdayRows(series), IntLess, w);
    CountOfAbsent(WeekdayRows(series), w);
  }

  /** Helper: a key carried by no row is counted zero times. */
  lemma {:induction false} CountOfAbsent(rows: seq<(int, real)>, k: int)
    requires forall i :: 0 <= i < |rows| ==> rows[i].0 != k
    ensures CountOf(rows, k) == 0
    decreases |rows|
  {
    if |rows| > 0 {
      CountOfAbsent(rows[..|rows| - 1], k);
    }
  }

  /** The factors of the weekdays present average to 1. */
  lemma FactorsAverageOne(series: Series)
    requires |series| > 0 && Normaliser(series) != 0.0
    ensures
      var ms := WeekdayMeans(series);
      Mean(seq(|ms|, i requires 0 <= i < |ms| => ms[i] / Normaliser(series))) == 1.0
  {
    var ms := WeekdayMeans(series);
    var norm := Normaliser(series);
    var ys := seq(|ms|, i requires 0 <= i < |ms| => ms[i] / norm);
    SumDivide(ms, norm);
    AverageOfRatios(Sum(ms), |ms| as real, norm, Sum(ys));
  }

  /** Helper: S / n is the normaliser, so (S / norm) / n is 1. */
  lemma AverageOfRatios(sum: real, n: real, norm: real, t: real)
    requires n > 0.0 && norm == sum / n && norm != 0.0 && t == sum / norm
    ensures t / n == 1.0
  {
    assert sum == norm * n;
    assert t == n;
  }

  /** Helper: dividing every term divides the sum. */
  lemma {:induction false} SumDivide(xs: seq<real>, c: real)
    requires c != 0.0
    ensures Sum(seq(|xs|, i requires 0 <= i < |xs| => xs[i] / c)) == Sum(xs) / c
    decreases |xs|
  {
    var ys := seq(|xs|, i requires 0 <= i < |xs| => xs[i] / c);
    if |xs| > 0 {
      var xs' := xs[..|xs| - 1];
      SumDivide(xs', c);
      assert ys[..|ys| - 1] == seq(|xs'|, i requires 0 <= i < |xs'| => xs'[i] / c);
    }
  }

  /** The factor of a weekday present is its mean over the normaliser. */
  lemma PresentWeekdayFactor(series: Series, i: int)
    requires |series| > 0 && NonNegative(series) && Normaliser(series) != 0.0
    requires 0 <= i < |WeekdayGroups(series)|
    ensures Factor(series, WeekdayGroups(series)[i].key) == Some(WeekdayMeans(series)[i] / Normaliser(series))
  {
    var gs := WeekdayGroups(series);
    WeekdayGroupsPositive(series);
    IntLessOrder();
    GroupByAscending(WeekdayRows(series), IntLess);
    GroupAt(gs, IntLess, i);
    assert HasGroup(gs, gs[i].key);
  }

  /** A zero normaliser makes the factor NaN only as 0 / 0: for non-negative
      totals the weekday's own mean is 0 as well. */
  lemma ZeroNormaliserFactor(series: Series, w: int)
    requires |series| > 0 && NonNegative(series) && Normaliser(series) == 0.0
    requires HasGroup(WeekdayGroups(series), w)
    ensures Factor(series, w) == None
    ensures GroupSum(WeekdayGroups(series), w) == 0.0
  {
    var gs := WeekdayGroups(series);
    var ms := WeekdayMeans(series);
    ZeroNormaliserMeans(series);
    var i :| 0 <= i < |gs| && gs[i].key == w;
    assert GroupSum(gs, w) == gs[i].sum by {
      IntLessOrder();
      GroupByAscending(WeekdayRows(series), IntLess);
      GroupAt(gs, IntLess, i);
    }
    ZeroMeanZeroSum(series, i);
  }

  /** Helper: a weekday group with mean 0 sums to 0. */
  lemma ZeroMeanZeroSum(series: Series, i: int)
    requires 0 <= i < |WeekdayMeans(series)| && WeekdayMeans(series)[i] == 0.0
    ensures WeekdayGroups(series)[i].sum == 0.0
  {
    var g := WeekdayGroups(series)[i];
    assert WeekdayMeans(series)[i] * (g.count as real) == g.sum;
  }

  /** For non-negative totals, weekday means averaging 0 are all 0. */
  lemma ZeroNormaliserMeans(series: Series)
    requires |series| > 0 && NonNegative(series) && Normaliser(series) == 0.0
    ensures forall i :: 0 <= i < |WeekdayMeans(series)| ==> WeekdayMeans(series)[i] == 0.0
  {
    var ms := WeekdayMeans(series);
    forall i | 0 <= i < |ms| ensures ms[i] >= 0.0 {
      WeekdayMeanNonNegative(series, i);
    }
    MeanZeroSumZero(ms);
    SumZeroAllZero(ms);
  }

  /** Helper: values with mean 0 sum to 0. */
  lemma MeanZeroSumZero(xs: seq<real>)
    requires |xs| > 0 && Mean(xs) == 0.0
    ensures Sum(xs) == 0.0
  {
    assert Sum(xs) == Mean(xs) * (|xs| as real);
  }

  /** For non-negative totals every weekday mean is non-negative. */
  lemma WeekdayMeanNonNegative(series: Series, i: int)
    requires NonNegative(series) && 0 <= i < |WeekdayMeans(series)|
    ensures WeekdayMeans(series)[i] >= 0.0
  {
    var rows := WeekdayRows(series);
    var gs := WeekdayGroups(series);
    var ms := WeekdayMeans(series);
    assert gs[i].sum == SumOf(rows, gs[i].key) by {
      IntLessOrder();
      GroupByCountPositive(rows, IntLess, i);
    }
    SumOfNonNegative(rows, gs[i].key);
    RatioNonNegative(ms[i], gs[i].sum, gs[i].count as real);
  }

  /** Helper: m * n == sum with n > 0 and sum >= 0 gives m >= 0. */
  lemma RatioNonNegative(m: real, sum: real, n: real)
    requires n > 0.0 && m * n == sum && sum >= 0.0
    ensures m >= 0.0
  {
  }

  /** Helper: a key's sum over non-negative rows is non-negative. */
  lemma {:induction false} SumOfNonNegative(rows: seq<(int, real)>, k: int)
    requires forall i :: 0 <= i < |rows| ==> rows[i].1 >= 0.0
    ensures SumOf(rows, k) >= 0.0
    decreases |rows|
  {
    if |rows| > 0 {
      SumOfNonNegative(rows[..|rows| - 1], k);
    }
  }

  /** A sum of non-negative values is non-negative. */
  lemma {:induction false} SumNonNegative(xs: seq<real>)
    requires forall i :: 0 <= i < |xs| ==> xs[i] >= 0.0
    ensures Sum(xs) >= 0.0
    decreases |xs|
  {
    if |xs| > 0 {
      SumNonNegative(xs[..|xs| - 1]);
    }
  }

  /** Non-negative values summing to 0 are all 0. */
  lemma {:induction false} SumZeroAllZero(xs: seq<real>)
    requires forall i :: 0 <= i < |xs| ==> xs[i] >= 0.0
    requires Sum(xs) == 0.0
    ensures forall i :: 0 <= i < |xs| ==> xs[i] == 0.0
    decreases |xs|
  {
    if |xs| > 0 {
      var init := xs[..|xs| - 1];
      SumNonNegative(init);
      SumZeroAllZero(init);
      forall i | 0 <= i < |xs| ensures xs[i] == 0.0 {
        if i < |init| {
          assert xs[i] == init[i];
        }
      }
    }
  }

  /** The base of non-negative totals is non-negative, so the noise scale
      base * 0.05 is a valid standard deviation. */
  lemma BaseNonNegative(series: Series)
    requires |series| > 0 && NonNegative(series)
    ensures Base(series) >= 0.0
  {
    var vs := Values(series);
    var week := Tail(vs, 7);
    var month := Tail(vs, 30);
    assert forall i :: 0 <= i < |week| ==> week[i] >= 0.0;
    assert forall i :: 0 <= i < |month| ==> month[i] >= 0.0;
    MeanNonNegative(week);
    MeanNonNegative(month);
  }

  /** For non-negative totals every factor that is a number is non-negative,
      so the pattern never turns a positive base into a negative forecast. */
  lemma FactorNonNegative(series: Series, w: int)
    requires |series| > 0 && NonNegative(series)
    ensures Factor(series, w).Some? ==> Factor(series, w).value >= 0.0
  {
    var gs := WeekdayGroups(series);
    var norm := Normaliser(series);
    if HasGroup(gs, w) && norm != 0.0 {
      var rows := WeekdayRows(series);
      NormaliserNonNegative(series);
      WeekdayContents(series, w);
      IntLessOrder();
      GroupByContents(rows, IntLess, w);
      SumOfNonNegative(rows, w);
      QuotientNonNegative(GroupSum(gs, w), GroupCount(gs, w) as real, norm);
    }
  }

  /** Helper: for non-negative totals the normaliser is non-negative. */
  lemma NormaliserNonNegative(series: Series)
    requires |series| > 0 && NonNegative(series)
    ensures Normaliser(series) >= 0.0
  {
    var ms := WeekdayMeans(series);
    forall i | 0 <= i < |ms| ensures ms[i] >= 0.0 {
      WeekdayMeanNonNegative(series, i);
    }
    WeekdayGroupsPositive(series);
    MeanNonNegative(ms);
  }

  /** Helper: a non-negative sum over two positive divisors stays non-negative. */
  lemma QuotientNonNegative(sum: real, n: real, norm: real)
    requires sum >= 0.0 && n > 0.0 && norm > 0.0
    ensures sum / n / norm >= 0.0
  {
    RatioNonNegative(sum / n, sum, n);
    RatioNonNegative(sum / n / norm, sum / n, norm);
  }

  /** Helper: the mean of non-negative values is non-negative. */
  lemma MeanNonNegative(xs: seq<real>)
    requires |xs| > 0 && forall i :: 0 <= i < |xs| ==> xs[i] >= 0.0
    ensures Mean(xs) >= 0.0
  {
    SumNonNegative(xs);
  }

  /** With a zero draw the forecast is max(0, base * factor). */
  lemma ZeroDrawForecast(base: real, factor: real)
    ensures ForecastValue(base, Some(factor), 0.0) == if base * factor > 0.0 then base * factor else 0.0
  {
    assert base * 0.05 * 0.0 == 0.0;
  }

  /** Helper: in a constant series every weekday's sum is the constant times
      its count. */
  lemma {:induction false} SumOfConstant(rows: seq<(int, real)>, k: int, c: real)
    requires forall i :: 0 <= i < |rows| ==> rows[i].1 == c
    ensures SumOf(rows, k) == c * (CountOf(rows, k) as real)
    decreases |rows|
  {
    if |rows| > 0 {
      SumOfConstant(rows[..|rows| - 1], k, c);
    }
  }

  /** Helper: a group of n values summing to c * n has mean c. */
  lemma MeanOfGroup(m: real, sum: real, n: real, c: real)
    requires n > 0.0 && m * n == sum && sum == c * n
    ensures m == c
  {
    assert (m - c) * n == 0.0;
  }

  /** Helper: in a constant series each weekday group sums to the constant
      times its size. */
  lemma ConstantWeekdaySum(series: Series, c: real, i: int)
    requires forall i :: 0 <= i < |series| ==> series[i].1 == c
    requires 0 <= i < |WeekdayGroups(series)|
    ensures WeekdayGroups(series)[i].sum == c * (WeekdayGroups(series)[i].count as real)
  {
    var rows := WeekdayRows(series);
    var g := WeekdayGroups(series)[i];
    assert forall j :: 0 <= j < |rows| ==> rows[j].1 == c;
    WeekdayGroupAt(series, i);
    SumOfConstant(rows, g.key, c);
  }

  /** Helper: weekday group i holds its weekday's sum and count. */
  lemma WeekdayGroupAt(series: Series, i: int)
    requires 0 <= i < |WeekdayGroups(series)|
    ensures WeekdayGroups(series)[i].sum == SumOf(WeekdayRows(series), WeekdayGroups(series)[i].key)
    ensures WeekdayGroups(series)[i].count == CountOf(WeekdayRows(series), WeekdayGroups(series)[i].key)
  {
    IntLessOrder();
    GroupByCountPositive(WeekdayRows(series), IntLess, i);
  }

  /** Helper: the mean of a group summing to c times its size is c. */
  lemma WeekdayMeanAt(series: Series, c: real, i: int)
    requires 0 <= i < |WeekdayMeans(series)|
    requires WeekdayGroups(series)[i].sum == c * (WeekdayGroups(series)[i].count as real)
    ensures WeekdayMeans(series)[i] == c
  {
    var gs := WeekdayGroups(series);
    var ms := WeekdayMeans(series);
    MeanOfGroup(ms[i], gs[i].sum, gs[i].count as real, c);
  }

  /** In a constant series every weekday mean is the constant. */
  lemma ConstantWeekdayMeans(series: Series, c: real)
    requires forall i :: 0 <= i < |series| ==> series[i].1 == c
    ensures forall i :: 0 <= i < |WeekdayMeans(series)| ==> WeekdayMeans(series)[i] == c
  {
    forall i | 0 <= i < |WeekdayMeans(series)| ensures WeekdayMeans(series)[i] == c {
      ConstantWeekdaySum(series, c, i);
      WeekdayMeanAt(series, c, i);
    }
  }

  /** Helper: a present weekday's factor is its group total over its count
      over the normaliser. */
  lemma FactorOfPresent(series: Series, w: int, sum: real, n: real, norm: real)
    requires |series| > 0 && NonNegative(series) && HasGroup(WeekdayGroups(series), w)
    requires sum == GroupSum(WeekdayGroups(series), w)
    requires n == GroupCount(WeekdayGroups(series), w) as real
    requires norm == Normaliser(series) && norm != 0.0
    ensures n > 0.0 && Factor(series, w) == Some(sum / n / norm)
  {
    IntLessOrder();
    GroupByContents(WeekdayRows(series), IntLess, w);
  }

  /** Helper: the weekday groups hold the weekday sums and counts. */
  lemma WeekdayContents(series: Series, w: int)
    ensures GroupSum(WeekdayGroups(series), w) == SumOf(WeekdayRows(series), w)
    ensures GroupCount(WeekdayGroups(series), w) == CountOf(WeekdayRows(series), w)
  {
    IntLessOrder();
    GroupByContents(WeekdayRows(series), IntLess, w);
  }

  /** Helper: (c * n) / n / c is 1. */
  lemma UnitRatio(c: real, n: real, sum: real)
    requires n > 0.0 && sum == c * n
    ensures sum / n == c
  {
  }

  /** Helper for FlatSeriesForecast: the factor of any weekday in a flat
      series. */
  lemma FlatFactor(series: Series, c: real, w: int)
    requires |series| > 0 && c >= 0.0
    requires forall i :: 0 <= i < |series| ==> series[i].1 == c
    requires Normaliser(series) == c
    ensures Factor(series, w) == Some(1.0) || (c == 0.0 && Factor(series, w) == None)
  {
    if HasGroup(WeekdayGroups(series), w) && c != 0.0 {
      var sum, n := ConstantGroup(series, c, w);
      PresentFlatFactor(series, c, w, sum, n);
    }
  }

  /** Helper for FlatFactor: the total and size of a weekday group of a
      constant series. */
  lemma ConstantGroup(series: Series, c: real, w: int) returns (sum: real, n: real)
    requires forall i :: 0 <= i < |series| ==> series[i].1 == c
    ensures sum == GroupSum(WeekdayGroups(series), w)
    ensures n == GroupCount(WeekdayGroups(series), w) as real
    ensures sum == c * n
  {
    var rows := WeekdayRows(series);
    WeekdayContents(series, w);
    SumOfConstant(rows, w, c);
    sum := SumOf(rows, w);
    n := CountOf(rows, w) as real;
  }

  /** Helper for FlatFactor: the case of a weekday present in the series. */
  lemma PresentFlatFactor(series: Series, c: real, w: int, sum: real, n: real)
    requires |series| > 0 && NonNegative(series) && c != 0.0 && Normaliser(series) == c
    requires HasGroup(WeekdayGroups(series), w)
    requires sum == GroupSum(WeekdayGroups(series), w)
    requires n == GroupCount(WeekdayGroups(series), w) as real
    requires sum == c * n
    ensures Factor(series, w) == Some(1.0)
  {
    FactorOfPresent(series, w, sum, n, c);
    RatioOne(Factor(series, w), sum, n, c);
  }

  /** Helper for FlatFactor: a group summing to c per row, over a normaliser
      of c, gives a factor of 1. */
  lemma RatioOne(f: Option<real>, sum: real, n: real, c: real)
    requires n > 0.0 && c != 0.0 && sum == c * n
    requires f == Some(sum / n / c)
    ensures f == Some(1.0)
  {
    UnitRatio(c, n, sum);
    assert c / c == 1.0;
  }

  /** Helper: the forecast value of a flat series with a zero draw. */
  lemma FlatValue(c: real, factor: Option<real>)
    requires c >= 0.0
    requires factor == Some(1.0) || (c == 0.0 && factor == None)
    ensures ForecastValue(c, factor, 0.0) == c
  {
    assert c * 0.05 * 0.0 == 0.0;
  }

  /** A flat, non-negative series with zero draws is forecast flat: every
      factor is 1 (or NaN when the constant is 0, which max turns into 0). */
  lemma FlatSeriesForecast(series: Series, c: real, days: nat, draws: seq<real>)
    requires |series| > 0 && c >= 0.0
    requires forall i :: 0 <= i < |series| ==> series[i].1 == c
    requires |draws| >= days && forall i :: 0 <= i < |draws| ==> draws[i] == 0.0
    ensures SimpleForecast(series, days, draws).Success?
    ensures forall i :: 0 <= i < days ==> SimpleForecast(series, days, draws).value[i].forecast == c
  {
    BaseOfConstant(series, c);
    ConstantWeekdayMeans(series, c);
    MeanConstant(WeekdayMeans(series), c);
    forall i | 0 <= i < days ensures ForecastAt(series, draws, i).forecast == c {
      var w := DayOfWeek(LastDate(series) + 1 + i);
      FlatFactor(series, c, w);
      FlatValue(c, Factor(series, w));
    }
  }

  /** Helper for ForecastWeekly: a day later is the next weekday, and a week
      later is the same weekday. */
  lemma ForecastWeekdays(d: int)
    ensures DayOfWeek(d + 1) == (DayOfWeek(d) + 1) % 7
    ensures DayOfWeek(d + 7) == DayOfWeek(d)
  {
  }

  /** Successive forecast rows walk through the week, and rows a week apart
      share their weekday factor, so with equal draws they forecast alike. */
  lemma ForecastWeekly(series: Series, days: int, draws: seq<real>, i: int)
    requires NonNegative(series) && |draws| >= days
    requires SimpleForecast(series, days, draws).Success?
    requires 0 <= i && i + 1 < |SimpleForecast(series, days, draws).value|
    ensures DayOfWeek(SimpleForecast(series, days, draws).value[i + 1].date)
      == (DayOfWeek(SimpleForecast(series, days, draws).value[i].date) + 1) % 7
    ensures i + 7 < |SimpleForecast(series, days, draws).value| && draws[i] == draws[i + 7] ==>
      SimpleForecast(series, days, draws).value[i + 7].forecast
      == SimpleForecast(series, days, draws).value[i].forecast
  {
    var rows := SimpleForecast(series, days, draws).value;
    var d := rows[i].date;
    ForecastWeekdays(d);
    assert rows[i + 1].date == d + 1;
    if i + 7 < |rows| {
      assert rows[i + 7].date == d + 7;
    }
  }
}
