/** The summary statistics the survey integration computes from the parsed trial
    records: the average angular error, the average response time and a 0..100
    accuracy score. A field that is missing, null, NaN or 0 reads as 0, which is
    what `field || 0` does. */
module QualtricsScores {
  import opened JsMath
  import opened OrientationTest

  /** One parsed trial record, reduced to the two fields the statistics read;
      `None` is a missing or null field. */
  datatype DataRow = DataRow(angleError: Option<JsNum>, rtSeconds: Option<JsNum>)

  /** `x || 0` on a number field. */
  function OrZero(x: Option<JsNum>): real
  {
    match x
    case Some(Num(v)) => v
    case _ => 0.0
  }

  function Errors(rows: seq<DataRow>): seq<real>
  {
    seq(|rows|, i requires 0 <= i < |rows| => OrZero(rows[i].angleError))
  }

  function Times(rows: seq<DataRow>): seq<real>
  {
    seq(|rows|, i requires 0 <= i < |rows| => OrZero(rows[i].rtSeconds))
  }

  /** Each record's error as a share of the largest possible error, 180. */
  function ErrorShares(rows: seq<DataRow>): seq<real>
  {
    seq(|rows|, i requires 0 <= i < |rows| => OrZero(rows[i].angleError) / 180.0)
  }

  /** Null or empty data scores 0; otherwise the nearest integer to the mean
      error (a half rounded up). */
  function CalculateAverageAngularError(data: Option<seq<DataRow>>): (r: int)
    ensures data.None? || data.value == [] ==> r == 0
    ensures data.Some? && data.value != [] ==>
              var mean := Sum(Errors(data.value)) / |data.value| as real;
              mean - 0.5 < r as real <= mean + 0.5
  {
    if data.None? || |data.value| == 0 then 0
    else Round(Sum(Errors(data.value)) / |data.value| as real)
  }

  /** Null or empty data scores 0; otherwise the mean time rounded to a tenth. */
  function CalculateAverageResponseTime(data: Option<seq<DataRow>>): (r: real)
    ensures data.None? || data.value == [] ==> r == 0.0
    ensures data.Some? && data.value != [] ==>
              var mean := Sum(Times(data.value)) / |data.value| as real;
              mean - 0.05 < r <= mean + 0.05 && WholeTenths(r)
  {
    if data.None? || |data.value| == 0 then 0.0
    else RoundTenth(Sum(Times(data.value)) / |data.value| as real)
  }

  /** Null or empty data scores 0; otherwise 100 times one minus the mean error
      share, rounded and clamped, so always in [0, 100]. */
  function CalculateAccuracyScore(data: Option<seq<DataRow>>): (r: int)
    ensures 0 <= r <= 100
    ensures data.None? || data.value == [] ==> r == 0
  {
    if data.None? || |data.value| == 0 then 0
    else
      var errorPercentage := Sum(ErrorShares(data.value)) / |data.value| as real;
      var accuracyScore := Round((1.0 - errorPercentage) * 100.0);
      if accuracyScore > 100 then 100 else if accuracyScore < 0 then 0 else accuracyScore
  }

  /** Every record's error reads as a value in [0, 180]. */
  ghost predicate ErrorsInRange(rows: seq<DataRow>)
  {
    forall k :: 0 <= k < |rows| ==> 0.0 <= OrZero(rows[k].angleError) <= 180.0
  }

  /** Errors in [0, 180] give an average error in [0, 180]. */
  lemma AverageErrorBounds(rows: seq<DataRow>)
    requires rows != [] && ErrorsInRange(rows)
    ensures 0 <= CalculateAverageAngularError(Some(rows)) <= 180
  {
    var errors, n := Errors(rows), |rows|;
    assert AllWithin(errors, 0.0, 180.0);
    SumWithin(errors, 0.0, 180.0);
    MeanWithin(Sum(errors), n, 0.0, 180.0);
    RoundWithin(Sum(errors) / (n as real), 0, 180);
  }

  /** Times in [0, maxSeconds] give an average time in [0, maxSeconds]. */
  lemma AverageTimeBounds(rows: seq<DataRow>, maxSeconds: int)
    requires rows != []
    requires forall k :: 0 <= k < |rows| ==> 0.0 <= OrZero(rows[k].rtSeconds) <= maxSeconds as real
    ensures 0.0 <= CalculateAverageResponseTime(Some(rows)) <= maxSeconds as real
  {
    var times, n := Times(rows), |rows|;
    assert AllWithin(times, 0.0, maxSeconds as real);
    SumWithin(times, 0.0, maxSeconds as real);
    MeanWithin(Sum(times), n, 0.0, maxSeconds as real);
    RoundTenthWithin(Sum(times) / (n as real), 0, maxSeconds);
  }

  /** Summing the shares is summing the errors and dividing by 180. */
  lemma {:induction false} SumOfShares(rows: seq<DataRow>)
    ensures Sum(ErrorShares(rows)) == Sum(Errors(rows)) / 180.0
  {
    if rows != [] {
      var init := rows[..|rows| - 1];
      SumOfShares(init);
      assert ErrorShares(rows)[..|rows| - 1] == ErrorShares(init);
      assert Errors(rows)[..|rows| - 1] == Errors(init);
    }
  }

  /** The mean error share is the mean error over 180. */
  lemma MeanShare(rows: seq<DataRow>)
    requires rows != []
    ensures Sum(ErrorShares(rows)) / |rows| as real == (Sum(Errors(rows)) / |rows| as real) / 180.0
  {
    SumOfShares(rows);
  }

  /** With errors in [0, 180] the clamp never engages: the score is the mean
      error's complement as a percentage of 180, rounded. */
  lemma AccuracyFromMeanError(rows: seq<DataRow>)
    requires rows != [] && ErrorsInRange(rows)
    ensures var mean := Sum(Errors(rows)) / |rows| as real;
            CalculateAccuracyScore(Some(rows)) == Round((1.0 - mean / 180.0) * 100.0)
  {
    var errors, n := Errors(rows), |rows|;
    var mean := Sum(errors) / n as real;
    assert AllWithin(errors, 0.0, 180.0);
    SumWithin(errors, 0.0, 180.0);
    MeanWithin(Sum(errors), n, 0.0, 180.0);
    MeanShare(rows);
    RoundWithin((1.0 - mean / 180.0) * 100.0, 0, 100);
  }

  /** Every error 0 scores 100. */
  lemma AccuracyAllCorrect(rows: seq<DataRow>)
    requires rows != []
    requires forall k :: 0 <= k < |rows| ==> OrZero(rows[k].angleError) == 0.0
    ensures CalculateAccuracyScore(Some(rows)) == 100
  {
    var errors := Errors(rows);
    assert forall k :: 0 <= k < |errors| ==> errors[k] == 0.0;
    SumConstant(errors, 0.0);
    MeanShare(rows);
    var errorPercentage := Sum(ErrorShares(rows)) / |rows| as real;
    assert errorPercentage == 0.0;
    assert Round((1.0 - errorPercentage) * 100.0) == 100;
  }

  /** Every error 180 scores 0. */
  lemma AccuracyAllOpposite(rows: seq<DataRow>)
    requires rows != []
    requires forall k :: 0 <= k < |rows| ==> OrZero(rows[k].angleError) == 180.0
    ensures CalculateAccuracyScore(Some(rows)) == 0
  {
    var errors, n := Errors(rows), |rows| as real;
    assert forall k :: 0 <= k < |errors| ==> errors[k] == 180.0;
    SumConstant(errors, 180.0);
    MeanShare(rows);
    var errorPercentage := Sum(ErrorShares(rows)) / n;
    assert Sum(errors) / n == 180.0;
    assert errorPercentage == 1.0;
    assert Round((1.0 - errorPercentage) * 100.0) == 0;
  }

  /** Rounding never reverses an order. */
  lemma RoundMonotone(x: real, y: real)
    requires x <= y
    ensures Round(x) <= Round(y)
  {
  }

  /** A larger total error never earns a higher score. */
  lemma AccuracyFallsAsErrorRises(better: seq<DataRow>, worse: seq<DataRow>)
    requires better != [] && |better| == |worse|
    requires Sum(Errors(better)) <= Sum(Errors(worse))
    ensures CalculateAccuracyScore(Some(better)) >= CalculateAccuracyScore(Some(worse))
  {
    var n := |better| as real;
    MeanShare(better);
    MeanShare(worse);
    var mb, mw := Sum(Errors(better)) / n, Sum(Errors(worse)) / n;
    assert mb <= mw;
    RoundMonotone((1.0 - mw / 180.0) * 100.0, (1.0 - mb / 180.0) * 100.0);
  }

  /** A record without an error field counts exactly as one whose error is 0. */
  lemma MissingErrorCountsAsZero(rows: seq<DataRow>, k: nat)
    requires k < |rows|
    ensures var missing := rows[k := rows[k].(angleError := None)];
            var zero := rows[k := rows[k].(angleError := Some(Num(0.0)))];
            && CalculateAverageAngularError(Some(missing)) == CalculateAverageAngularError(Some(zero))
            && CalculateAccuracyScore(Some(missing)) == CalculateAccuracyScore(Some(zero))
  {
    var missing := rows[k := rows[k].(angleError := None)];
    var zero := rows[k := rows[k].(angleError := Some(Num(0.0)))];
    assert Errors(missing) == Errors(zero);
    assert ErrorShares(missing) == ErrorShares(zero);
  }

  /** The records the orientation test's trials serialise to. */
  function RowsOf(trials: seq<TrialData>): (rows: seq<DataRow>)
    ensures |rows| == |trials|
    ensures forall k :: 0 <= k < |trials| ==>
              rows[k] == DataRow(Some(Num(trials[k].angleError)), Some(Num(trials[k].rtSeconds)))
  {
    seq(|trials|, i requires 0 <= i < |trials| => DataRow(Some(Num(trials[i].angleError)), Some(Num(trials[i].rtSeconds))))
  }

  /** The survey receives the same two averages the completion page shows. */
  lemma SurveyMatchesCompletionPage(trials: seq<TrialData>)
    requires trials != []
    ensures CalculateAverageAngularError(Some(RowsOf(trials))) == CompletionSummary(trials).averageError
    ensures CalculateAverageResponseTime(Some(RowsOf(trials))) == CompletionSummary(trials).averageTime
  {
    assert Errors(RowsOf(trials)) == AngleErrors(trials);
    assert Times(RowsOf(trials)) == RtSeconds(trials);
  }
}
