/** create_state_predictions: for each dataset, the mean daily total of every
    state over the last 30 days of that dataset, and thirty times it as the
    monthly prediction. */
module StatePredictions {
  import opened Common
  import opened Text
  import opened Grouping
  import opened Sequences

  /** One row of a dataset: its state, its date as a day number, its total. */
  datatype StateRow = StateRow(state: string, date: int, total: real)

  datatype Prediction = Prediction(state: string, updateType: string, dailyAvg: real, monthly: real)

  /** Rows on or after (latest date - Window) count as recent. */
  const Window: int := 30

  /** The monthly prediction is this many daily averages. */
  const DaysPerMonth: real := 30.0

  lemma StrLessOrder()
    ensures StrictOrder(StrLess)
  {
    forall a: string ensures !StrLess(a, a) {
      StrLessIrreflexive(a);
    }
    forall a: string, b: string, c: string | StrLess(a, b) && StrLess(b, c) ensures StrLess(a, c) {
      StrLessTransitive(a, b, c);
    }
    forall a: string, b: string | a != b ensures StrLess(a, b) || StrLess(b, a) {
      StrLessTotal(a, b);
    }
  }

  /** df['date'].max(); None is NaT, the maximum of no dates. */
  function MaxDate(rows: seq<StateRow>): (m: Option<int>)
    ensures m.None? <==> |rows| == 0
    ensures m.Some? ==> forall i :: 0 <= i < |rows| ==> rows[i].date <= m.value
    ensures m.Some? ==> exists i :: 0 <= i < |rows| && rows[i].date == m.value
  {
    if |rows| == 0 then None
    else
      var init := rows[..|rows| - 1];
      var x := rows[|rows| - 1].date;
      var m := MaxDate(init);
      assert forall i :: 0 <= i < |init| ==> init[i] == rows[i];
      if m.None? || x > m.value then Some(x) else m
  }

  /** The rows dated on or after `cutoff`, in order. */
  function OnOrAfter(rows: seq<StateRow>, cutoff: int): (r: seq<StateRow>)
    ensures |r| <= |rows|
    ensures forall i :: 0 <= i < |r| ==> r[i].date >= cutoff && r[i] in rows
    ensures forall i :: 0 <= i < |rows| && rows[i].date >= cutoff ==> rows[i] in r
  {
    if |rows| == 0 then []
    else
      var x := rows[|rows| - 1];
      OnOrAfter(rows[..|rows| - 1], cutoff) + (if x.date >= cutoff then [x] else [])
  }

  /** The mask df['date'] >= cutoff, as a test on one row. */
  function From(cutoff: int): StateRow -> bool {
    (x: StateRow) => x.date >= cutoff
  }

  /** OnOrAfter is the boolean-mask selection df[df['date'] >= cutoff]: an
      order-preserving subsequence holding as many rows as qualify. */
  lemma {:induction false} OnOrAfterIsFilter(rows: seq<StateRow>, cutoff: int)
    ensures OnOrAfter(rows, cutoff) == Filter(rows, From(cutoff))
    ensures Subseq(OnOrAfter(rows, cutoff), rows)
    ensures |OnOrAfter(rows, cutoff)| == Count(rows, From(cutoff))
    decreases |rows|
  {
    if |rows| > 0 {
      OnOrAfterIsFilter(rows[..|rows| - 1], cutoff);
    }
    FilterSubseq(rows, From(cutoff));
    FilterLength(rows, From(cutoff));
  }

  /** df['date'].max() - 30 days. Without rows the maximum is NaT; no row is
      then left to compare with it, so the cutoff is immaterial and is 0. */
  function Cutoff(rows: seq<StateRow>): int {
    match MaxDate(rows)
    case None => 0
    case Some(m) => m - Window
  }

  /** df[df['date'] >= df['date'].max() - 30 days]. */
  function Recent(rows: seq<StateRow>): (r: seq<StateRow>)
    ensures |r| <= |rows|
    ensures r == Filter(rows, From(Cutoff(rows)))
    ensures Subseq(r, rows)
    ensures |r| == Count(rows, From(Cutoff(rows)))
  {
    OnOrAfterIsFilter(rows, Cutoff(rows));
    OnOrAfter(rows, Cutoff(rows))
  }

  function StateTotals(rows: seq<StateRow>): (st: seq<(string, real)>)
    ensures |st| == |rows|
    ensures forall i :: 0 <= i < |rows| ==> st[i] == (rows[i].state, rows[i].total)
  {
    seq(|rows|, i requires 0 <= i < |rows| => (rows[i].state, rows[i].total))
  }

  function RecentGroups(rows: seq<StateRow>): (gs: seq<Group<string>>)
    ensures NonEmptyGroups(gs)
  {
    StrLessOrder();
    GroupByNonEmpty(StateTotals(Recent(rows)), StrLess);
    GroupBy(StateTotals(Recent(rows)), StrLess)
  }

  /** The prediction of one state from its group of recent totals. */
  function PredictionOf(name: string, g: Group<string>): (p: Prediction)
    requires g.count > 0
    ensures p.state == g.key && p.updateType == name
    ensures p.dailyAvg * (g.count as real) == g.sum
    ensures p.monthly == DaysPerMonth * p.dailyAvg
  {
    var avg := g.sum / (g.count as real);
    Prediction(g.key, name, avg, DaysPerMonth * avg)
  }

  /** The predictions of one dataset, one per state, in state order. */
  function PredictFor(name: string, rows: seq<StateRow>): (ps: seq<Prediction>)
    ensures |ps| == |RecentGroups(rows)|
    ensures forall i, j :: 0 <= i < j < |ps| ==> StrLess(ps[i].state, ps[j].state)
    ensures forall i :: 0 <= i < |ps| ==> ps[i] == PredictionOf(name, RecentGroups(rows)[i])
    ensures forall p :: p in ps ==> p.updateType == name
  {
    var gs := RecentGroups(rows);
    StrLessOrder();
    GroupByAscending(StateTotals(Recent(rows)), StrLess);
    Predictions(name, gs)
  }

  /** One prediction per group, in group order. */
  function Predictions(name: string, gs: seq<Group<string>>): (ps: seq<Prediction>)
    requires NonEmptyGroups(gs)
    ensures |ps| == |gs|
    ensures forall i :: 0 <= i < |ps| ==> ps[i] == PredictionOf(name, gs[i])
  {
    if |gs| == 0 then [] else [PredictionOf(name, gs[0])] + Predictions(name, gs[1..])
  }

  /** all_predictions: one table per dataset, in dataset order. */
  function Tables(datasets: seq<(string, seq<StateRow>)>): (ts: seq<seq<Prediction>>)
    ensures |ts| == |datasets|
    ensures forall k :: 0 <= k < |ts| ==> ts[k] == PredictFor(datasets[k].0, datasets[k].1)
  {
    seq(|datasets|, k requires 0 <= k < |datasets| => PredictFor(datasets[k].0, datasets[k].1))
  }

  /** pd.concat of the per-dataset predictions, in dataset order. Like
      pd.concat, it fails on an empty list of tables. */
  function CreateStatePredictions(datasets: seq<(string, seq<StateRow>)>): (r: Result<seq<Prediction>>)
    ensures r.Failure? <==> |datasets| == 0
    ensures r.Success? ==> |r.value| == Offset(Tables(datasets), |datasets|)
  {
    if |datasets| == 0 then Failure("No objects to concatenate")
    else
      var ts := Tables(datasets);
      assert ts[..|ts|] == ts;
      Success(Flatten(ts))
  }

  // ---------------------------------------------------------------------------
  // Properties

  predicate HasPrediction(ps: seq<Prediction>, state: string) {
    exists i :: 0 <= i < |ps| && ps[i].state == state
  }

  /** A state is predicted exactly when it has a recent row. */
  lemma PredictionPresent(name: string, rows: seq<StateRow>, state: string)
    ensures HasPrediction(PredictFor(name, rows), state) <==> CountOf(StateTotals(Recent(rows)), state) > 0
  {
    var st := StateTotals(Recent(rows));
    var gs := RecentGroups(rows);
    var ps := PredictFor(name, rows);
    assert gs == GroupBy(st, StrLess);
    StrLessOrder();
    GroupByContents(st, StrLess, state);
    if HasGroup(gs, state) {
      var i :| 0 <= i < |gs| && gs[i].key == state;
      assert ps[i].state == state;
    }
    if HasPrediction(ps, state) {
      var i :| 0 <= i < |ps| && ps[i].state == state;
      assert gs[i].key == state;
    }
  }

  /** `p` predicts the mean of its state's totals in `st`, and thirty daily
      averages a month. */
  predicate IsMeanOf(p: Prediction, st: seq<(string, real)>) {
    CountOf(st, p.state) > 0 &&
    p.dailyAvg * (CountOf(st, p.state) as real) == SumOf(st, p.state) &&
    p.monthly == 30.0 * p.dailyAvg
  }

  /** Each predicted daily average is the mean of that state's recent totals,
      and the monthly figure is thirty of them. */
  lemma PredictionMean(name: string, rows: seq<StateRow>, i: int)
    requires 0 <= i < |PredictFor(name, rows)|
    ensures IsMeanOf(PredictFor(name, rows)[i], StateTotals(Recent(rows)))
  {
    var st := StateTotals(Recent(rows));
    var gs := RecentGroups(rows);
    var p := PredictFor(name, rows)[i];
    assert p == PredictionOf(name, gs[i]);
    GroupMean(name, st, i);
  }

  /** Helper for PredictionMean, stated on the groups themselves. */
  lemma GroupMean(name: string, st: seq<(string, real)>, i: int)
    requires 0 <= i < |GroupBy(st, StrLess)|
    ensures GroupBy(st, StrLess)[i].count > 0
    ensures IsMeanOf(PredictionOf(name, GroupBy(st, StrLess)[i]), st)
  {
    var g := GroupBy(st, StrLess)[i];
    assert g.count > 0 && g.sum == SumOf(st, g.key) && g.count == CountOf(st, g.key) by {
      StrLessOrder();
      GroupByCountPositive(st, StrLess, i);
    }
    MeanFromGroup(name, g, st);
  }

  /** Helper: a group's mean, rewritten into the totals it came from. */
  lemma MeanFromGroup(name: string, g: Group<string>, st: seq<(string, real)>)
    requires g.count > 0 && g.sum == SumOf(st, g.key) && g.count == CountOf(st, g.key)
    ensures IsMeanOf(PredictionOf(name, g), st)
  {
    var p := PredictionOf(name, g);
    assert p.state == g.key && p.dailyAvg * (g.count as real) == g.sum;
  }

  /** A dataset without rows predicts nothing. */
  lemma NoRowsNoPredictions(name: string)
    ensures PredictFor(name, []) == []
  {
  }

  /** A row is recent exactly when it is a row dated no more than Window days
      before the latest date; only a dataset without rows has none. */
  lemma RecentRows(rows: seq<StateRow>, x: StateRow)
    ensures |Recent(rows)| == 0 <==> |rows| == 0
    ensures x in Recent(rows) <==> x in rows && x.date >= MaxDate(rows).value - Window
  {
    if |rows| > 0 {
      var m := MaxDate(rows).value;
      var i :| 0 <= i < |rows| && rows[i].date == m;
      assert rows[i] in Recent(rows);
      if x in rows {
        var j :| 0 <= j < |rows| && rows[j] == x;
      }
      if x in Recent(rows) {
        var j :| 0 <= j < |Recent(rows)| && Recent(rows)[j] == x;
      }
    }
  }

  /** The latest row is recent, so the recent rows have the same latest date. */
  lemma OnOrAfterMax(rows: seq<StateRow>, cutoff: int)
    requires MaxDate(rows).Some? && MaxDate(rows).value >= cutoff
    ensures MaxDate(OnOrAfter(rows, cutoff)) == MaxDate(rows)
  {
    var d := MaxDate(rows).value;
    var r := OnOrAfter(rows, cutoff);
    var k :| 0 <= k < |rows| && rows[k].date == d;
    assert rows[k] in r;
    forall i | 0 <= i < |r| ensures r[i].date <= d {
      var t :| 0 <= t < |rows| && rows[t] == r[i];
    }
    MaxDateIs(r, d);
  }

  /** Helper: a date that some row has and no row exceeds is the latest. */
  lemma MaxDateIs(s: seq<StateRow>, d: int)
    requires exists i :: 0 <= i < |s| && s[i].date == d
    requires forall i :: 0 <= i < |s| ==> s[i].date <= d
    ensures MaxDate(s) == Some(d)
  {
    var i :| 0 <= i < |s| && s[i].date == d;
    var m := MaxDate(s).value;
    var j :| 0 <= j < |s| && s[j].date == m;
    assert s[i].date <= m && s[j].date <= d;
  }

  /** Selecting twice with one cutoff is selecting once. */
  lemma {:induction false} OnOrAfterIdempotent(rows: seq<StateRow>, cutoff: int)
    ensures OnOrAfter(OnOrAfter(rows, cutoff), cutoff) == OnOrAfter(rows, cutoff)
    decreases |rows|
  {
    if |rows| > 0 {
      var init := rows[..|rows| - 1];
      var x := rows[|rows| - 1];
      var r := OnOrAfter(init, cutoff);
      OnOrAfterIdempotent(init, cutoff);
      if x.date >= cutoff {
        var rx := r + [x];
        assert rx[..|rx| - 1] == r;
      } else {
        assert OnOrAfter(rows, cutoff) == r;
      }
    }
  }

  /** Rows older than the window never influence the predictions. */
  lemma OnlyRecentRowsMatter(name: string, rows: seq<StateRow>)
    ensures PredictFor(name, Recent(rows)) == PredictFor(name, rows)
  {
    RecentIdempotent(rows);
    SameRecentSamePredictions(name, Recent(rows), rows);
  }

  /** Selecting the recent rows of the recent rows changes nothing. */
  lemma RecentIdempotent(rows: seq<StateRow>)
    ensures Recent(Recent(rows)) == Recent(rows)
  {
    RecentCutoff(rows);
    OnOrAfterIdempotent(rows, Cutoff(rows));
  }

  /** Helper: the recent rows keep the cutoff, as they keep the latest date. */
  lemma RecentCutoff(rows: seq<StateRow>)
    ensures Cutoff(Recent(rows)) == Cutoff(rows)
  {
    if |rows| > 0 {
      OnOrAfterMax(rows, MaxDate(rows).value - Window);
    }
  }

  /** Helper: the predictions depend on the recent rows only. */
  lemma SameRecentSamePredictions(name: string, a: seq<StateRow>, b: seq<StateRow>)
    requires Recent(a) == Recent(b)
    ensures PredictFor(name, a) == PredictFor(name, b)
  {
    assert RecentGroups(a) == RecentGroups(b);
  }

  /** When every row lies within the window, every row is recent. */
  lemma {:induction false} AllWithinWindow(rows: seq<StateRow>, cutoff: int)
    requires forall i :: 0 <= i < |rows| ==> rows[i].date >= cutoff
    ensures OnOrAfter(rows, cutoff) == rows
    decreases |rows|
  {
    if |rows| > 0 {
      AllWithinWindow(rows[..|rows| - 1], cutoff);
      assert rows[..|rows| - 1] + [rows[|rows| - 1]] == rows;
    }
  }

  /** The combined table lists each dataset's predictions in turn: dataset
      k's table (Tables(datasets)[k], its PredictFor) is the slice that
      starts right after the tables of the datasets before it. */
  lemma CreateStatePredictionsBlocks(datasets: seq<(string, seq<StateRow>)>, k: int)
    requires 0 <= k < |datasets|
    ensures CreateStatePredictions(datasets).Success?
    ensures Offset(Tables(datasets), k) + |Tables(datasets)[k]| <= |CreateStatePredictions(datasets).value|
    ensures CreateStatePredictions(datasets).value[Offset(Tables(datasets), k)
      ..Offset(Tables(datasets), k) + |Tables(datasets)[k]|] == Tables(datasets)[k]
  {
    FlattenBlock(Tables(datasets), k);
  }

  /** ... and nothing else: every row of the combined table lies in the table
      of some dataset. */
  lemma CreateStatePredictionsCovered(datasets: seq<(string, seq<StateRow>)>, i: int)
    requires CreateStatePredictions(datasets).Success?
    requires 0 <= i < |CreateStatePredictions(datasets).value|
    ensures exists k :: (0 <= k < |datasets|
      && Offset(Tables(datasets), k) <= i < Offset(Tables(datasets), k) + |Tables(datasets)[k]|)
  {
    FlattenCovered(Tables(datasets), i);
  }

  /** Every prediction of the combined table names one of the datasets. */
  lemma CreateStatePredictionsLabels(datasets: seq<(string, seq<StateRow>)>, i: int)
    requires CreateStatePredictions(datasets).Success?
    requires 0 <= i < |CreateStatePredictions(datasets).value|
    ensures exists k :: 0 <= k < |datasets| && CreateStatePredictions(datasets).value[i].updateType == datasets[k].0
  {
    var ts := Tables(datasets);
    FlattenMember(ts, i);
    var k :| 0 <= k < |ts| && Flatten(ts)[i] in ts[k];
    assert ts[k] == PredictFor(datasets[k].0, datasets[k].1);
  }
}
