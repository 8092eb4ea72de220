/** `check_for_regressions` (backend/app/evaluators/tasks.py): compare the
    mean of each metric over the newest (up to 100) scored evaluations of a
    model and prompt type with a "historical" mean over those records from
    the eleventh on. Metrics come from the newest scored record. The rows are
    an input already ordered newest first; the `created_at` ordering itself
    is not modelled. */
module Regressions {
  import opened Wrappers
  import opened Errors
  import opened Schema

  /** The query's `.limit(100)`. */
  const QueryLimit := 100
  /** Records before this index count as recent only. */
  const HistoryStart := 10
  const ReportThreshold := 0.1
  const HighThreshold := 0.2

  function Abs(x: real): real { if x < 0.0 then -x else x }

  /** The score columns of the rows joined to a prompt of type `t` and
      belonging to `modelId`, in the given order, at most 100 of them. */
  function MatchingScores(rows: seq<Evaluation>, prompts: map<string, Prompt>, modelId: string,
                          t: EvaluationType): (r: seq<Option<map<string, real>>>)
    ensures |r| <= |rows|
    ensures r == [] <==> forall i :: 0 <= i < |rows| ==> !Matches(rows[i], prompts, modelId, t)
    decreases |rows|
  {
    if rows == [] then []
    else
      var rest := MatchingScores(rows[1..], prompts, modelId, t);
      if Matches(rows[0], prompts, modelId, t) then [rows[0].scores] + rest else rest
  }

  predicate Matches(e: Evaluation, prompts: map<string, Prompt>, modelId: string, t: EvaluationType) {
    e.modelId == modelId && e.promptId in prompts && prompts[e.promptId].promptType == t
  }

  /** `recent_evals`: the first hundred matching rows. */
  function Recent(rows: seq<Evaluation>, prompts: map<string, Prompt>, modelId: string,
                  t: EvaluationType): (r: seq<Option<map<string, real>>>)
    ensures |r| <= QueryLimit
  {
    var all := MatchingScores(rows, prompts, modelId, t);
    if |all| <= QueryLimit then all else all[..QueryLimit]
  }

  /** `[e.scores for e in recent_evals if e.scores]`: a NULL or an empty
      map is falsy and is dropped. */
  function Scored(recent: seq<Option<map<string, real>>>): (r: seq<map<string, real>>)
    ensures |r| <= |recent|
    ensures forall i :: 0 <= i < |r| ==> r[i] != map[]
    ensures r == [] <==> forall i :: 0 <= i < |recent| ==> recent[i].None? || recent[i].value == map[]
    decreases |recent|
  {
    if recent == [] then []
    else
      var rest := Scored(recent[1..]);
      assert forall i :: 1 <= i < |recent| ==> recent[i] == recent[1..][i - 1];
      if recent[0].Some? && recent[0].value != map[] then [recent[0].value] + rest else rest
  }

  /** `[s[metric] for s in scores if metric in s]`. */
  function Values(scores: seq<map<string, real>>, metric: string): (r: seq<real>)
    ensures |r| <= |scores|
    ensures scores != [] && metric in scores[0] ==> |r| > 0
    ensures (forall i :: 0 <= i < |scores| ==> metric !in scores[i]) ==> r == []
    decreases |scores|
  {
    if scores == [] then []
    else (if metric in scores[0] then [scores[0][metric]] else []) + Values(scores[1..], metric)
  }

  function Sum(xs: seq<real>): real
    decreases |xs|
  {
    if xs == [] then 0.0 else xs[0] + Sum(xs[1..])
  }

  function Mean(xs: seq<real>): real
    requires |xs| > 0
  {
    Sum(xs) / (|xs| as real)
  }

  /** Every value a metric takes in `scores` equal to `v` makes every
      collected value `v`. */
  lemma {:induction false} ValuesConstant(scores: seq<map<string, real>>, metric: string, v: real)
    requires forall i :: 0 <= i < |scores| && metric in scores[i] ==> scores[i][metric] == v
    ensures forall x :: x in Values(scores, metric) ==> x == v
    decreases |scores|
  {
    if scores != [] {
      assert forall i :: 0 <= i < |scores[1..]| ==> scores[1..][i] == scores[i + 1];
      ValuesConstant(scores[1..], metric, v);
    }
  }

  /** The sum of `n` copies of `v` is `n * v`, so their mean is `v`. */
  lemma {:induction false} SumOfConstant(xs: seq<real>, v: real)
    requires forall x :: x in xs ==> x == v
    ensures Sum(xs) == (|xs| as real) * v
    decreases |xs|
  {
    if xs != [] {
      assert xs[0] in xs;
      assert forall x :: x in xs[1..] ==> x in xs;
      SumOfConstant(xs[1..], v);
    }
  }

  lemma MeanOfConstant(xs: seq<real>, v: real)
    requires |xs| > 0 && forall x :: x in xs ==> x == v
    ensures Mean(xs) == v
  {
    SumOfConstant(xs, v);
  }

  /** `avg_scores`: for each metric of the newest scored record, the mean over
      the records that contain it. */
  function AverageScores(scores: seq<map<string, real>>): (r: map<string, real>)
    requires |scores| > 0
    ensures r.Keys == scores[0].Keys
  {
    map m | m in scores[0] :: Mean(Values(scores, m))
  }

  /** The metric's values in `older` summed and divided by the number of all
      records in `older`, whether they contain the metric or not. */
  function SpreadMean(older: seq<map<string, real>>, metric: string): (r: real)
    requires |older| > 0
    ensures (forall i :: 0 <= i < |older| ==> metric in older[i]) ==> r == Mean(Values(older, metric))
    ensures (forall i :: 0 <= i < |older| ==> metric !in older[i]) ==> r == 0.0
  {
    assert (forall i :: 0 <= i < |older| ==> metric in older[i]) ==> |Values(older, metric)| == |older| by {
      if forall i :: 0 <= i < |older| ==> metric in older[i] { ValuesAllPresent(older, metric); }
    }
    Sum(Values(older, metric)) / (|older| as real)
  }

  /** `historical_avg` as written: the sum over `scores[10:]` of the records
      containing the metric, divided by the number of ALL records in
      `scores[10:]`. With ten records or fewer that number is zero. */
  function HistoricalAsWritten(scores: seq<map<string, real>>): (r: Result<map<string, real>, Exc>)
    requires |scores| > 0
    ensures r.Err? <==> |scores| <= HistoryStart && scores[0] != map[]
    ensures r.Err? ==> r.error == ZeroDivisionError
    ensures r.Ok? ==> r.value.Keys == scores[0].Keys
  {
    if scores[0] == map[] then Ok(map[])
    else if |scores| <= HistoryStart then Err(ZeroDivisionError)
    else
      var older := scores[HistoryStart..];
      Ok(map m | m in scores[0] :: SpreadMean(older, m))
  }

  /** One entry of the `regressions` dictionary. */
  datatype Regression = Regression(current: real, historical: real, difference: real, severity: string)

  function Entry(current: real, historical: real): (e: Regression)
    ensures e.current == current && e.historical == historical
    ensures e.historical + e.difference == e.current
    ensures e.severity == "high" <==> Abs(e.current - e.historical) > HighThreshold
    ensures e.severity == "medium" <==> Abs(e.current - e.historical) <= HighThreshold
  {
    var diff := current - historical;
    Regression(current, historical, diff, if Abs(diff) > HighThreshold then "high" else "medium")
  }

  /** The metrics among `keys` present in both averages whose means differ
      by more than 0.1. */
  function RegressionsOver(avg: map<string, real>, hist: map<string, real>, keys: set<string>): (r: map<string, Regression>)
    requires keys <= avg.Keys
    ensures forall m :: m in r <==> m in keys && m in hist && Abs(avg[m] - hist[m]) > ReportThreshold
  {
    map m | m in keys && m in hist && Abs(avg[m] - hist[m]) > ReportThreshold :: Entry(avg[m], hist[m])
  }

  /** A reported metric carries both means and their difference; its severity
      is "high" exactly when the difference exceeds 0.2 in absolute value and
      "medium" otherwise, never "low". */
  lemma ReportedEntries(avg: map<string, real>, hist: map<string, real>, m: string)
    requires m in RegressionsOver(avg, hist, avg.Keys)
    ensures var e := RegressionsOver(avg, hist, avg.Keys)[m];
      && e.current == avg[m] && e.historical == hist[m] && e.difference == avg[m] - hist[m]
      && Abs(e.difference) > ReportThreshold
      && (e.severity == "high" <==> Abs(e.difference) > HighThreshold)
      && (e.severity == "medium" <==> Abs(e.difference) <= HighThreshold)
      && e.severity != "low"
  {
  }

  /** The task's result dictionary. */
  datatype Report =
    | NoData
    | NoScores
    | Success(modelId: string, evaluationType: EvaluationType, regressions: map<string, Regression>, sampleSize: nat)
    | Failed(error: string)

  /** `check_for_regressions` on the fetched score columns, as written. */
  function CheckSpec(modelId: string, t: EvaluationType, recent: seq<Option<map<string, real>>>): (r: Report)
    ensures recent == [] ==> r == NoData
    ensures r.NoScores? <==> recent != [] && Scored(recent) == []
    ensures r.Success? ==> r.sampleSize == |Scored(recent)| && r.sampleSize <= |recent|
    ensures r.Failed? <==> recent != [] && 0 < |Scored(recent)| <= HistoryStart
    ensures r.Failed? ==> r.error == "division by zero"
  {
    if recent == [] then NoData
    else
      var scores := Scored(recent);
      if scores == [] then NoScores
      else
        var avg := AverageScores(scores);
        match HistoricalAsWritten(scores)
        case Err(e) => Failed(e.Str())
        case Ok(hist) => Success(modelId, t, RegressionsOver(avg, hist, avg.Keys), |scores|)
  }

  /** Whatever the rows, the sample size is at most the query limit. */
  lemma SampleSizeBounded(rows: seq<Evaluation>, prompts: map<string, Prompt>, modelId: string, t: EvaluationType)
    ensures var r := CheckSpec(modelId, t, Recent(rows, prompts, modelId, t));
      r.Success? ==> 11 <= r.sampleSize <= QueryLimit
  {
  }

  /** A metric that no record from the eleventh on contains reads as a
      historical mean of zero: with a steady value `v` above 0.1 in the
      recent records it is reported with difference `v`. */
  lemma MissingHistoryReadsAsZero(scores: seq<map<string, real>>, metric: string, v: real)
    requires |scores| > HistoryStart && metric in scores[0]
    requires forall i :: 0 <= i < |scores| && metric in scores[i] ==> scores[i][metric] == v
    requires forall i :: HistoryStart <= i < |scores| ==> metric !in scores[i]
    requires v > ReportThreshold
    ensures var avg := AverageScores(scores);
      var hist := HistoricalAsWritten(scores).value;
      && avg[metric] == v && hist[metric] == 0.0
      && metric in RegressionsOver(avg, hist, avg.Keys)
      && RegressionsOver(avg, hist, avg.Keys)[metric].difference == v
      && RegressionsOver(avg, hist, avg.Keys)[metric].severity == (if v > HighThreshold then "high" else "medium")
  {
    SteadyRecentMean(scores, metric, v);
    AbsentFromHistory(scores, metric);
  }

  lemma SteadyRecentMean(scores: seq<map<string, real>>, metric: string, v: real)
    requires |scores| > 0 && metric in scores[0]
    requires forall i :: 0 <= i < |scores| && metric in scores[i] ==> scores[i][metric] == v
    ensures AverageScores(scores)[metric] == v
  {
    ValuesConstant(scores, metric, v);
    MeanOfConstant(Values(scores, metric), v);
  }

  lemma AbsentFromHistory(scores: seq<map<string, real>>, metric: string)
    requires |scores| > HistoryStart && metric in scores[0]
    requires forall i :: HistoryStart <= i < |scores| ==> metric !in scores[i]
    ensures HistoricalAsWritten(scores).value[metric] == 0.0
  {
    var older := scores[HistoryStart..];
    forall i | 0 <= i < |older| ensures metric !in older[i] {
      assert older[i] == scores[i + HistoryStart];
    }
    HistoricalEntry(scores, metric);
  }

  /** Each historical entry is the spread mean over the records after the
      first ten. */
  lemma HistoricalEntry(scores: seq<map<string, real>>, metric: string)
    requires |scores| > HistoryStart && metric in scores[0]
    ensures HistoricalAsWritten(scores).Ok?
    ensures HistoricalAsWritten(scores).value[metric] == SpreadMean(scores[HistoryStart..], metric)
  {
  }

  /** The recent window overlaps the historical one: with twelve records
      that all hold the metric, the two newest at `x` and the other ten at
      `y`, the recent mean is (2x + 10y) / 12 and the historical mean is `y`
      (records eleven and twelve), so the metric is reported only when `x`
      and `y` differ by more than 0.6. */
  lemma OverlappingWindows(scores: seq<map<string, real>>, metric: string, x: real, y: real)
    requires |scores| == 12
    requires forall i :: 0 <= i < 12 ==> metric in scores[i]
    requires forall i :: 0 <= i < 2 ==> scores[i][metric] == x
    requires forall i :: 2 <= i < 12 ==> scores[i][metric] == y
    ensures AverageScores(scores)[metric] == (2.0 * x + 10.0 * y) / 12.0
    ensures HistoricalAsWritten(scores).Ok? && HistoricalAsWritten(scores).value[metric] == y
    ensures var avg := AverageScores(scores);
      metric in RegressionsOver(avg, HistoricalAsWritten(scores).value, avg.Keys) <==> Abs(x - y) > 0.6
  {
    TwelveRecentMean(scores, metric, x, y);
    TwelveHistoricalMean(scores, metric, y);
    var avg := AverageScores(scores);
    var hist := HistoricalAsWritten(scores).value;
    assert avg[metric] - hist[metric] == (x - y) / 6.0;
  }

  lemma TwelveRecentMean(scores: seq<map<string, real>>, metric: string, x: real, y: real)
    requires |scores| == 12
    requires forall i :: 0 <= i < 12 ==> metric in scores[i]
    requires forall i :: 0 <= i < 2 ==> scores[i][metric] == x
    requires forall i :: 2 <= i < 12 ==> scores[i][metric] == y
    ensures AverageScores(scores)[metric] == (2.0 * x + 10.0 * y) / 12.0
  {
    var vs := Values(scores, metric);
    ValuesAllPresent(scores, metric);
    var a, b := vs[..2], vs[2..];
    assert vs == a + b;
    assert forall v :: v in a ==> v == x by {
      forall v | v in a ensures v == x {
        var k :| 0 <= k < |a| && a[k] == v;
        assert a[k] == vs[k];
      }
    }
    assert forall v :: v in b ==> v == y by {
      forall v | v in b ensures v == y {
        var k :| 0 <= k < |b| && b[k] == v;
        assert b[k] == vs[k + 2];
      }
    }
    SumAppend(a, b);
    SumOfConstant(a, x);
    SumOfConstant(b, y);
    assert Sum(vs) == 2.0 * x + 10.0 * y;
  }

  lemma TwelveHistoricalMean(scores: seq<map<string, real>>, metric: string, y: real)
    requires |scores| == 12
    requires forall i :: 0 <= i < 12 ==> metric in scores[i]
    requires forall i :: 2 <= i < 12 ==> scores[i][metric] == y
    ensures HistoricalAsWritten(scores).Ok? && HistoricalAsWritten(scores).value[metric] == y
  {
    var older := scores[HistoryStart..];
    assert older == [scores[10], scores[11]];
    assert Values(older, metric) == [y, y] by {
      assert Values(older[1..], metric) == [y] + Values(older[2..], metric);
    }
    assert Sum([y, y]) == y + y by {
      assert [y, y][1..] == [y];
      assert Sum([y]) == y + Sum([]);
    }
    assert SpreadMean(older, metric) == (y + y) / 2.0;
    HistoricalEntry(scores, metric);
  }

  /** The two newest records at 0.5 and ten older ones at 0.9 give means of
      about 0.833 and 0.9: no regression is reported. */
  lemma TwelveRecordsNoRegression(scores: seq<map<string, real>>, metric: string)
    requires |scores| == 12
    requires forall i :: 0 <= i < 12 ==> metric in scores[i]
    requires forall i :: 0 <= i < 2 ==> scores[i][metric] == 0.5
    requires forall i :: 2 <= i < 12 ==> scores[i][metric] == 0.9
    ensures var avg := AverageScores(scores);
      metric !in RegressionsOver(avg, HistoricalAsWritten(scores).value, avg.Keys)
  {
    OverlappingWindows(scores, metric, 0.5, 0.9);
  }

  /** When every record holds the metric, its values are the records' values
      in order. */
  lemma {:induction false} ValuesAllPresent(scores: seq<map<string, real>>, metric: string)
    requires forall i :: 0 <= i < |scores| ==> metric in scores[i]
    ensures |Values(scores, metric)| == |scores|
    ensures forall i :: 0 <= i < |scores| ==> Values(scores, metric)[i] == scores[i][metric]
    decreases |scores|
  {
    if scores != [] {
      var rest := scores[1..];
      assert forall i :: 0 <= i < |rest| ==> rest[i] == scores[i + 1];
      ValuesAllPresent(rest, metric);
    }
  }

  lemma {:induction false} SumAppend(a: seq<real>, b: seq<real>)
    ensures Sum(a + b) == Sum(a) + Sum(b)
    decreases |a|
  {
    if a == [] {
      assert a + b == b;
    } else {
      assert (a + b)[1..] == a[1..] + b;
      SumAppend(a[1..], b);
    }
  }

  /** The historical mean taken, like the recent one, over the records that
      contain the metric; a metric no older record contains is left out, as
      the `metric in historical_avg` test anticipates. */
  function HistoricalCorrected(scores: seq<map<string, real>>): (r: map<string, real>)
    requires |scores| > 0
    ensures r.Keys <= scores[0].Keys
    ensures |scores| <= HistoryStart ==> r == map[]
    ensures forall m :: m in r <==>
      m in scores[0] && |scores| > HistoryStart && exists i :: HistoryStart <= i < |scores| && m in scores[i]
    ensures forall m :: m in r ==>
      |scores| > HistoryStart && |Values(scores[HistoryStart..], m)| > 0
      && r[m] == Mean(Values(scores[HistoryStart..], m))
  {
    var older := if |scores| <= HistoryStart then [] else scores[HistoryStart..];
    HistoryPresence(scores);
    map m | m in scores[0] && |Values(older, m)| > 0 :: Mean(Values(older, m))
  }

  /** A metric has values from the eleventh record on exactly when one of
      those records contains it. */
  lemma HistoryPresence(scores: seq<map<string, real>>)
    ensures |scores| > HistoryStart ==> forall m :: |Values(scores[HistoryStart..], m)| > 0 <==>
      exists i :: HistoryStart <= i < |scores| && m in scores[i]
  {
    if |scores| <= HistoryStart {
      return;
    }
    var older := scores[HistoryStart..];
    forall m ensures |Values(older, m)| > 0 <==> exists i :: HistoryStart <= i < |scores| && m in scores[i] {
      ValuesNonEmptyIff(older, m);
      if exists i :: HistoryStart <= i < |scores| && m in scores[i] {
        var i :| HistoryStart <= i < |scores| && m in scores[i];
        assert older[i - HistoryStart] == scores[i];
      }
      if exists j :: 0 <= j < |older| && m in older[j] {
        var j :| 0 <= j < |older| && m in older[j];
        assert older[j] == scores[j + HistoryStart];
      }
    }
  }

  /** A metric has collected values exactly when some record contains it. */
  lemma {:induction false} ValuesNonEmptyIff(scores: seq<map<string, real>>, metric: string)
    ensures |Values(scores, metric)| > 0 <==> exists i :: 0 <= i < |scores| && metric in scores[i]
    decreases |scores|
  {
    if scores != [] {
      var rest := scores[1..];
      ValuesNonEmptyIff(rest, metric);
      if exists i :: 0 <= i < |scores| && metric in scores[i] {
        var i :| 0 <= i < |scores| && metric in scores[i];
        if i > 0 {
          assert rest[i - 1] == scores[i];
        }
      }
      if exists j :: 0 <= j < |rest| && metric in rest[j] {
        var j :| 0 <= j < |rest| && metric in rest[j];
        assert scores[j + 1] == rest[j];
      }
    }
  }

  /** `check_for_regressions` with the corrected historical mean. */
  function CheckCorrected(modelId: string, t: EvaluationType, recent: seq<Option<map<string, real>>>): (r: Report)
    ensures recent == [] ==> r == NoData
    ensures r.NoScores? <==> recent != [] && Scored(recent) == []
    ensures !r.Failed?
    ensures r.Success? ==> r.sampleSize == |Scored(recent)|
  {
    if recent == [] then NoData
    else
      var scores := Scored(recent);
      if scores == [] then NoScores
      else
        var avg := AverageScores(scores);
        Success(modelId, t, RegressionsOver(avg, HistoricalCorrected(scores), avg.Keys), |scores|)
  }

  /** With the corrected mean, a metric whose value never changes across the
      records is never reported, however many records there are. */
  lemma SteadyMetricNotReported(scores: seq<map<string, real>>, metric: string, v: real)
    requires |scores| > 0 && metric in scores[0]
    requires forall i :: 0 <= i < |scores| && metric in scores[i] ==> scores[i][metric] == v
    ensures var avg := AverageScores(scores);
      metric !in RegressionsOver(avg, HistoricalCorrected(scores), avg.Keys)
  {
    ValuesConstant(scores, metric, v);
    MeanOfConstant(Values(scores, metric), v);
    if |scores| > HistoryStart {
      var older := scores[HistoryStart..];
      assert forall i :: 0 <= i < |older| && metric in older[i] ==> older[i][metric] == v by {
        forall i | 0 <= i < |older| && metric in older[i] ensures older[i][metric] == v {
          assert older[i] == scores[i + HistoryStart];
        }
      }
      ValuesConstant(older, metric, v);
      if |Values(older, metric)| > 0 {
        MeanOfConstant(Values(older, metric), v);
      }
    }
  }

  /** The comprehension over the fetched rows, as a loop from the back. */
  method CollectScored(recent: seq<Option<map<string, real>>>) returns (scores: seq<map<string, real>>)
    ensures scores == Scored(recent)
  {
    scores := [];
    var i := |recent|;
    while i > 0
      invariant 0 <= i <= |recent|
      invariant scores == Scored(recent[i..])
    {
      i := i - 1;
      assert recent[i..][1..] == recent[i + 1..];
      if recent[i].Some? && recent[i].value != map[] {
        scores := [recent[i].value] + scores;
      }
    }
    assert recent[0..] == recent;
  }

  /** The loop that fills `avg_scores`. */
  method AverageLoop(scores: seq<map<string, real>>) returns (avg: map<string, real>)
    requires |scores| > 0
    ensures avg == AverageScores(scores)
  {
    var metrics := scores[0].Keys;
    avg := map[];
    var todo := metrics;
    while todo != {}
      invariant todo <= metrics
      invariant avg == map m | m in metrics - todo :: Mean(Values(scores, m))
      decreases todo
    {
      var m :| m in todo;
      avg := avg[m := Mean(Values(scores, m))];
      todo := todo - {m};
    }
  }

  /** The `historical_avg` comprehension. Its first metric divides by
      `len(scores[10:])`, so with ten records or fewer it raises before any
      entry is stored. */
  method HistoricalLoop(scores: seq<map<string, real>>) returns (r: Result<map<string, real>, Exc>)
    requires |scores| > 0
    ensures r == HistoricalAsWritten(scores)
  {
    if scores[0] == map[] {
      return Ok(map[]);
    }
    if |scores| <= HistoryStart {
      return Err(ZeroDivisionError);
    }
    var older := scores[HistoryStart..];
    var metrics := scores[0].Keys;
    var hist: map<string, real> := map[];
    var todo := metrics;
    while todo != {}
      invariant todo <= metrics
      invariant hist == map m | m in metrics - todo :: SpreadMean(older, m)
      decreases todo
    {
      var m :| m in todo;
      hist := hist[m := SpreadMean(older, m)];
      todo := todo - {m};
    }
    assert metrics - todo == metrics;
    assert hist == map m | m in scores[0] :: SpreadMean(older, m);
    r := Ok(hist);
  }

  /** The loop that fills `regressions`. */
  method RegressionsLoop(avg: map<string, real>, hist: map<string, real>) returns (regressions: map<string, Regression>)
    ensures regressions == RegressionsOver(avg, hist, avg.Keys)
  {
    regressions := map[];
    var todo := avg.Keys;
    while todo != {}
      invariant todo <= avg.Keys
      invariant regressions == RegressionsOver(avg, hist, avg.Keys - todo)
      decreases todo
    {
      var m :| m in todo;
      if m in hist {
        var diff := avg[m] - hist[m];
        if Abs(diff) > ReportThreshold {
          regressions := regressions[m := Entry(avg[m], hist[m])];
        }
      }
      todo := todo - {m};
    }
  }

  /** The imperative `check_for_regressions` on the fetched score columns. */
  method CheckForRegressions(modelId: string, t: EvaluationType, recent: seq<Option<map<string, real>>>)
    returns (report: Report)
    ensures report == CheckSpec(modelId, t, recent)
  {
    if recent == [] {
      return NoData;
    }
    var scores := CollectScored(recent);
    if scores == [] {
      return NoScores;
    }
    var avg := AverageLoop(scores);
    var hist := HistoricalLoop(scores);
    if hist.Err? {
      return Failed(hist.error.Str());
    }
    var regressions := RegressionsLoop(avg, hist.value);
    report := Success(modelId, t, regressions, |scores|);
  }
}
