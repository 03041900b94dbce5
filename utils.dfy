/**
 * The evaluation helpers of utils/utils.go: the consistency of an output
 * history, the metric arithmetic of CheckClassification over given output
 * histories, the pattern band of the spike raster and its time axis.
 * Chart rendering, terminal colouring and file output are not modelled.
 */
module Utils {

  datatype Option<T> = None | Some(value: T)

  // ---------------------------------------------------------------------
  // calculateConsistency

  /** The positions j < n at which row agrees with base. */
  function RowMatches(row: seq<int>, base: seq<int>, n: nat): nat
    requires n <= |base| && n <= |row|
  {
    if n == 0 then 0
    else RowMatches(row, base, n - 1) + (if row[n - 1] == base[n - 1] then 1 else 0)
  }

  /** Never more matches than positions, and as many exactly when the row
      agrees with base on all of them. */
  lemma {:induction false} RowMatchesFull(row: seq<int>, base: seq<int>, n: nat)
    requires n <= |base| && n <= |row|
    ensures RowMatches(row, base, n) <= n
    ensures RowMatches(row, base, n) == n <==> forall j :: 0 <= j < n ==> row[j] == base[j]
  {
    if n > 0 {
      RowMatchesFull(row, base, n - 1);
    }
  }

  /** Every row is at least as long as the first: the inner loop of
      calculateConsistency indexes outputs[i] up to len(base) (a shorter row
      makes the source panic). */
  predicate CoversBase(outputs: seq<seq<int>>)
  {
    forall i :: 0 <= i < |outputs| ==> |outputs[i]| >= |outputs[0]|
  }

  /** The matches of rows 1 .. n-1 against row 0, summed. */
  function MatchSum(outputs: seq<seq<int>>, n: nat): nat
    requires CoversBase(outputs) && 1 <= n <= |outputs|
  {
    if n == 1 then 0
    else MatchSum(outputs, n - 1) + RowMatches(outputs[n - 1], outputs[0], |outputs[0]|)
  }

  /** The sum never exceeds the number of compared positions, and reaches it
      exactly when each of rows 1 .. n-1 agrees with row 0 everywhere. */
  lemma {:induction false} MatchSumFull(outputs: seq<seq<int>>, n: nat)
    requires CoversBase(outputs) && 1 <= n <= |outputs|
    ensures MatchSum(outputs, n) <= (n - 1) * |outputs[0]|
    ensures MatchSum(outputs, n) == (n - 1) * |outputs[0]| <==>
      forall i, j :: 1 <= i < n && 0 <= j < |outputs[0]| ==> outputs[i][j] == outputs[0][j]
  {
    if n > 1 {
      MatchSumFull(outputs, n - 1);
      RowMatchesFull(outputs[n - 1], outputs[0], |outputs[0]|);
      assert (n - 1) * |outputs[0]| == (n - 2) * |outputs[0]| + |outputs[0]|;
    }
  }

  // ---------------------------------------------------------------------
  // float64 division and its special values

  /** A float64 as the metrics can produce it: a finite value, or one of the
      special values a division by zero yields. */
  datatype Float = Finite(value: real) | NaN | PosInf | NegInf

  /** a / b on float64: a zero divisor gives NaN for a zero dividend and an
      infinity of the dividend's sign otherwise. */
  function Quot(a: real, b: real): (r: Float)
    ensures b != 0.0 <==> r.Finite?
    ensures r.Finite? ==> r.value * b == a
    ensures r == NaN <==> b == 0.0 && a == 0.0
  {
    if b != 0.0 then Finite(a / b)
    else if a == 0.0 then NaN
    else if a > 0.0 then PosInf
    else NegInf
  }

  /** The sign of a non-NaN value: -1, 0 or 1. */
  function Sign(x: Float): int
  {
    match x
    case Finite(a) => if a > 0.0 then 1 else if a < 0.0 then -1 else 0
    case PosInf => 1
    case NegInf => -1
    case NaN => 0
  }

  /** x + y on float64. */
  function Add(x: Float, y: Float): (r: Float)
    ensures r.Finite? <==> x.Finite? && y.Finite?
    ensures x.NaN? || y.NaN? ==> r.NaN?
  {
    if x.NaN? || y.NaN? then NaN
    else if x.Finite? && y.Finite? then Finite(x.value + y.value)
    else if x.Finite? then y
    else if y.Finite? || x == y then x
    else NaN
  }

  /** x * y on float64: an infinity times zero is NaN. */
  function Mul(x: Float, y: Float): (r: Float)
    ensures r.Finite? <==> x.Finite? && y.Finite?
    ensures x.NaN? || y.NaN? ==> r.NaN?
  {
    if x.NaN? || y.NaN? then NaN
    else if x.Finite? && y.Finite? then Finite(x.value * y.value)
    else if Sign(x) * Sign(y) == 0 then NaN
    else if Sign(x) * Sign(y) > 0 then PosInf
    else NegInf
  }

  /** x / 2 on float64. */
  function Half(x: Float): (r: Float)
    ensures r.Finite? <==> x.Finite?
    ensures r.Finite? ==> r.value + r.value == x.value
    ensures r.NaN? <==> x.NaN?
  {
    if x.Finite? then Finite(x.value / 2.0) else x
  }

  /** x > c on float64: false for NaN. */
  predicate Greater(x: Float, c: real)
  {
    match x
    case Finite(a) => a > c
    case PosInf => true
    case NegInf => false
    case NaN => false
  }

  /** calculateConsistency: the fraction of positions of the first row that
      a later row repeats; 0 for an empty history. */
  function Consistency(outputs: seq<seq<int>>): Float
    requires CoversBase(outputs)
  {
    if |outputs| == 0 then Finite(0.0)
    else Quot(MatchSum(outputs, |outputs|) as real, ((|outputs| - 1) * |outputs[0]|) as real)
  }

  /** A count out of a non-zero total is a fraction in [0, 1]. */
  lemma FractionAtMostOne(a: nat, b: nat)
    requires 0 < b && a <= b
    ensures 0.0 <= a as real / b as real <= 1.0
  {
    var q := a as real / b as real;
    assert q * b as real == a as real;
  }

  /** A count out of a non-zero total is the whole exactly when it equals
      the total. */
  lemma FractionOneIff(a: nat, b: nat)
    requires 0 < b
    ensures a as real / b as real == 1.0 <==> a == b
  {
    var q := a as real / b as real;
    assert q * b as real == a as real;
  }

  /** An empty history has consistency 0. The consistency is NaN exactly
      when a non-empty history has a single row or an empty first row
      (0 / 0); otherwise it is a fraction in [0, 1]. */
  lemma ConsistencyRange(outputs: seq<seq<int>>)
    requires CoversBase(outputs)
    ensures |outputs| == 0 ==> Consistency(outputs) == Finite(0.0)
    ensures Consistency(outputs).NaN? <==> |outputs| > 0 && (|outputs| == 1 || |outputs[0]| == 0)
    ensures !Consistency(outputs).NaN? ==>
      Consistency(outputs).Finite? && 0.0 <= Consistency(outputs).value <= 1.0
  {
    if |outputs| > 0 {
      MatchSumFull(outputs, |outputs|);
      var total := (|outputs| - 1) * |outputs[0]|;
      if total > 0 {
        FractionAtMostOne(MatchSum(outputs, |outputs|), total);
      }
    }
  }

  /** A history with at least two rows and a non-empty first row has
      consistency 1 exactly when every later row repeats the first row on
      all of its positions. */
  lemma ConsistencyOneIff(outputs: seq<seq<int>>)
    requires CoversBase(outputs) && |outputs| >= 2 && |outputs[0]| > 0
    ensures Consistency(outputs) == Finite(1.0) <==>
      forall i, j :: 1 <= i < |outputs| && 0 <= j < |outputs[0]| ==> outputs[i][j] == outputs[0][j]
  {
    MatchSumFull(outputs, |outputs|);
    FractionOneIff(MatchSum(outputs, |outputs|), (|outputs| - 1) * |outputs[0]|);
  }

  /** calculateConsistency(outputs), with its two nested counting loops. */
  method CalculateConsistency(outputs: seq<seq<int>>) returns (c: Float)
    requires CoversBase(outputs)
    ensures c == Consistency(outputs)
  {
    if |outputs| == 0 {
      return Finite(0.0);
    }
    var sum := 0.0;
    var base := outputs[0];
    for i := 1 to |outputs|
      invariant sum == MatchSum(outputs, i) as real
    {
      ghost var before := sum;
      for j := 0 to |base|
        invariant sum == before + RowMatches(outputs[i], base, j) as real
      {
        if outputs[i][j] == base[j] {
          sum := sum + 1.0;
        }
      }
    }
    c := Quot(sum, ((|outputs| - 1) * |base|) as real);
  }

  // ---------------------------------------------------------------------
  // CheckClassification, over given output histories

  /** ClassificationResult. */
  datatype ClassificationResult = ClassificationResult(
    patternDifferentiation: bool,
    consistencyA: Float,
    consistencyB: Float,
    separationScore: Float)

  function AbsInt(x: int): nat
  {
    if x < 0 then -x else x
  }

  /** The sum of |a[j] - b[j]| over the first n positions. */
  function RowDiff(a: seq<int>, b: seq<int>, n: nat): nat
    requires n <= |a| && n <= |b|
  {
    if n == 0 then 0
    else RowDiff(a, b, n - 1) + AbsInt(a[n - 1] - b[n - 1])
  }

  /** Trial i compares outputA with outputB over outputA's length, so
      outputB must be at least as long (the source panics otherwise). */
  predicate Paired(histA: seq<seq<int>>, histB: seq<seq<int>>)
  {
    |histA| == |histB| && forall i :: 0 <= i < |histA| ==> |histB[i]| >= |histA[i]|
  }

  /** diffSum after the first k trials. */
  function DiffSum(histA: seq<seq<int>>, histB: seq<seq<int>>, k: nat): nat
    requires Paired(histA, histB) && k <= |histA|
  {
    if k == 0 then 0
    else DiffSum(histA, histB, k - 1) + RowDiff(histA[k - 1], histB[k - 1], |histA[k - 1]|)
  }

  /** avgDiff := diffSum / float64(trials * len(patternA)). */
  function AvgDiff(histA: seq<seq<int>>, histB: seq<seq<int>>, patternLen: nat): Float
    requires Paired(histA, histB)
  {
    Quot(DiffSum(histA, histB, |histA|) as real, (|histA| * patternLen) as real)
  }

  /** The metrics CheckClassification derives from the output histories of
      its trials (outputAHistory, outputBHistory) and len(patternA). */
  function Classify(histA: seq<seq<int>>, histB: seq<seq<int>>, patternLen: nat): ClassificationResult
    requires Paired(histA, histB) && CoversBase(histA) && CoversBase(histB)
  {
    var avgDiff := AvgDiff(histA, histB, patternLen);
    var consistencyA := Consistency(histA);
    var consistencyB := Consistency(histB);
    ClassificationResult(Greater(avgDiff, 0.5), consistencyA, consistencyB,
      Half(Mul(avgDiff, Add(consistencyA, consistencyB))))
  }

  /** Every output entry is a spike, 0 or 1. */
  predicate BinaryHistory(hist: seq<seq<int>>)
  {
    forall i, j :: 0 <= i < |hist| && 0 <= j < |hist[i]| ==> hist[i][j] == 0 || hist[i][j] == 1
  }

  /** The positions j < n at which a and b differ. */
  function RowDiffCount(a: seq<int>, b: seq<int>, n: nat): nat
    requires n <= |a| && n <= |b|
  {
    |set j | 0 <= j < n && a[j] != b[j]|
  }

  lemma SplitLastDifference(a: seq<int>, b: seq<int>, n: nat)
    requires 0 < n <= |a| && n <= |b|
    ensures RowDiffCount(a, b, n) == RowDiffCount(a, b, n - 1) + (if a[n - 1] != b[n - 1] then 1 else 0)
  {
    var s := set j | 0 <= j < n && a[j] != b[j];
    var s' := set j | 0 <= j < n - 1 && a[j] != b[j];
    if a[n - 1] != b[n - 1] {
      assert s == s' + {n - 1};
    } else {
      assert s == s';
    }
  }

  /** On spike outputs |a - b| is 1 where the two differ and 0 elsewhere, so
      the difference of a trial counts its differing positions, and is at
      most the number of positions. */
  lemma {:induction false} RowDiffCountsDifferences(a: seq<int>, b: seq<int>, n: nat)
    requires n <= |a| && n <= |b|
    requires forall j :: 0 <= j < n ==> (a[j] == 0 || a[j] == 1) && (b[j] == 0 || b[j] == 1)
    ensures RowDiff(a, b, n) == RowDiffCount(a, b, n) <= n
  {
    if n > 0 {
      RowDiffCountsDifferences(a, b, n - 1);
      SplitLastDifference(a, b, n);
    }
  }

  /** The differing positions of the first k trials. */
  function DiffCount(histA: seq<seq<int>>, histB: seq<seq<int>>, k: nat): nat
    requires Paired(histA, histB) && k <= |histA|
  {
    if k == 0 then 0
    else DiffCount(histA, histB, k - 1) + RowDiffCount(histA[k - 1], histB[k - 1], |histA[k - 1]|)
  }

  /** On spike outputs diffSum counts, trial by trial, the positions where
      the two outputs differ. */
  lemma {:induction false} DiffSumCountsDifferences(histA: seq<seq<int>>, histB: seq<seq<int>>, k: nat)
    requires Paired(histA, histB) && k <= |histA|
    requires BinaryHistory(histA) && BinaryHistory(histB)
    ensures DiffSum(histA, histB, k) == DiffCount(histA, histB, k)
  {
    if k > 0 {
      DiffSumCountsDifferences(histA, histB, k - 1);
      var i := k - 1;
      assert forall j :: 0 <= j < |histA[i]| ==> histB[i][j] == 0 || histB[i][j] == 1;
      RowDiffCountsDifferences(histA[i], histB[i], |histA[i]|);
    }
  }

  /** No output of the history is longer than the pattern. */
  predicate WithinPattern(hist: seq<seq<int>>, patternLen: nat)
  {
    forall i :: 0 <= i < |hist| ==> |hist[i]| <= patternLen
  }

  /** On spike outputs no longer than the pattern, diffSum over k trials is
      at most k * len(patternA). */
  lemma {:induction false} DiffSumAtMost(histA: seq<seq<int>>, histB: seq<seq<int>>, k: nat, patternLen: nat)
    requires Paired(histA, histB) && k <= |histA|
    requires BinaryHistory(histA) && BinaryHistory(histB) && WithinPattern(histA, patternLen)
    ensures DiffSum(histA, histB, k) <= k * patternLen
  {
    if k > 0 {
      DiffSumAtMost(histA, histB, k - 1, patternLen);
      var i := k - 1;
      assert forall j :: 0 <= j < |histA[i]| ==> histB[i][j] == 0 || histB[i][j] == 1;
      RowDiffCountsDifferences(histA[i], histB[i], |histA[i]|);
      assert k * patternLen == (k - 1) * patternLen + patternLen;
    }
  }

  /** With at least one trial and a non-empty pattern, and spike outputs no
      longer than the pattern, the average difference is a fraction in
      [0, 1]; with no trials it is NaN (0 / 0). */
  lemma AvgDiffRange(histA: seq<seq<int>>, histB: seq<seq<int>>, patternLen: nat)
    requires Paired(histA, histB)
    ensures |histA| == 0 ==> AvgDiff(histA, histB, patternLen).NaN?
    ensures (|histA| > 0 && patternLen > 0 && BinaryHistory(histA) && BinaryHistory(histB) &&
             WithinPattern(histA, patternLen)) ==>
      AvgDiff(histA, histB, patternLen).Finite? && 0.0 <= AvgDiff(histA, histB, patternLen).value <= 1.0
  {
    if |histA| > 0 && patternLen > 0 && BinaryHistory(histA) && BinaryHistory(histB) &&
      WithinPattern(histA, patternLen)
    {
      DiffSumAtMost(histA, histB, |histA|, patternLen);
      FractionAtMostOne(DiffSum(histA, histB, |histA|), |histA| * patternLen);
    }
  }

  /** With no trials nothing is differentiated: both consistencies are 0
      and the average difference and the separation score are NaN. */
  lemma ClassifyNoTrials(histA: seq<seq<int>>, histB: seq<seq<int>>, patternLen: nat)
    requires |histA| == 0 && |histB| == 0
    ensures !Classify(histA, histB, patternLen).patternDifferentiation
    ensures Classify(histA, histB, patternLen).consistencyA == Finite(0.0)
    ensures Classify(histA, histB, patternLen).separationScore.NaN?
  {
  }

  /** With at least two trials of spike outputs, outputs as long as the
      non-empty pattern: every metric is finite, the consistencies lie in
      [0, 1], the separation score between 0 and the average difference,
      and the patterns count as differentiated exactly when the average
      difference exceeds one half. */
  lemma ClassifyBounds(histA: seq<seq<int>>, histB: seq<seq<int>>, patternLen: nat)
    requires Paired(histA, histB) && CoversBase(histA) && CoversBase(histB)
    requires |histA| >= 2 && patternLen > 0
    requires BinaryHistory(histA) && BinaryHistory(histB)
    requires forall i :: 0 <= i < |histA| ==> |histA[i]| == patternLen
    ensures var r := Classify(histA, histB, patternLen);
      var avg := AvgDiff(histA, histB, patternLen);
      avg.Finite? && r.consistencyA.Finite? && r.consistencyB.Finite? && r.separationScore.Finite? &&
      0.0 <= r.consistencyA.value <= 1.0 && 0.0 <= r.consistencyB.value <= 1.0 &&
      0.0 <= r.separationScore.value <= avg.value &&
      (r.patternDifferentiation <==> avg.value > 0.5)
  {
    AvgDiffRange(histA, histB, patternLen);
    ConsistencyRange(histA);
    ConsistencyRange(histB);
    var avg := AvgDiff(histA, histB, patternLen).value;
    var m := (Consistency(histA).value + Consistency(histB).value) / 2.0;
    assert 0.0 <= m <= 1.0;
    assert Half(Mul(AvgDiff(histA, histB, patternLen), Add(Consistency(histA), Consistency(histB)))).value == avg * m;
    assert avg * m <= avg * 1.0;
  }

  /** CheckClassification, from the output histories on: its diffSum loop
      over the trials and their positions, then the derived metrics. */
  method CheckClassification(histA: seq<seq<int>>, histB: seq<seq<int>>, patternLen: nat) returns (result: ClassificationResult)
    requires Paired(histA, histB) && CoversBase(histA) && CoversBase(histB)
    ensures result == Classify(histA, histB, patternLen)
  {
    var diffSum := 0.0;
    for i := 0 to |histA|
      invariant diffSum == DiffSum(histA, histB, i) as real
    {
      var outputA := histA[i];
      var outputB := histB[i];
      ghost var before := diffSum;
      for j := 0 to |outputA|
        invariant diffSum == before + RowDiff(outputA, outputB, j) as real
      {
        diffSum := diffSum + AbsInt(outputA[j] - outputB[j]) as real;
      }
    }
    var avgDiff := Quot(diffSum, (|histA| * patternLen) as real);
    var consistencyA := CalculateConsistency(histA);
    var consistencyB := CalculateConsistency(histB);
    var separationScore := Half(Mul(avgDiff, Add(consistencyA, consistencyB)));
    result := ClassificationResult(Greater(avgDiff, 0.5), consistencyA, consistencyB, separationScore);
  }

  // ---------------------------------------------------------------------
  // The spike raster's pattern band and time axis

  /** opts.LineData: a plotted value, or nil for a gap. */
  datatype LineData = LineData(value: Option<int>)

  /** Entry t of the band: 0 while the pattern shown at tick t is the
      highlighted one, nil otherwise. */
  function SeriesEntry(patterns: seq<string>, interval: int, highlight: string, t: nat): LineData
    requires interval > 0 && |patterns| > 0
  {
    if patterns[(t / interval) % |patterns|] == highlight then LineData(Some(0)) else LineData(None)
  }

  /** The band is cut off at 1000 entries. */
  const SeriesLimit := 1000

  /** generatePatternSeries(patterns, interval, highlight): the loop runs
      until 1000 entries have been appended. A zero interval or an empty
      pattern list makes the source divide by zero. */
  method GeneratePatternSeries(patterns: seq<string>, interval: int, highlight: string) returns (series: seq<LineData>)
    requires interval > 0 && |patterns| > 0
    ensures |series| == SeriesLimit
    ensures forall t :: 0 <= t < |series| ==>
      (series[t].value == Some(0) <==> patterns[(t / interval) % |patterns|] == highlight)
    ensures forall t :: 0 <= t < |series| ==> series[t].value == Some(0) || series[t].value == None
  {
    series := [];
    var t := 0;
    while true
      invariant t == |series| < SeriesLimit
      invariant forall k :: 0 <= k < t ==> series[k] == SeriesEntry(patterns, interval, highlight, k)
      decreases SeriesLimit - t
    {
      var patternIdx := t / interval % |patterns|;
      if patterns[patternIdx] == highlight {
        series := series + [LineData(Some(0))];
      } else {
        series := series + [LineData(None)];
      }
      if |series| >= SeriesLimit {
        break;
      }
      t := t + 1;
    }
  }

  /** The character of a decimal digit. */
  function DigitChar(d: nat): char
    requires d < 10
  {
    "0123456789"[d]
  }

  /** fmt.Sprintf("%d", n) for a non-negative n. */
  function DecimalString(n: nat): string
  {
    if n < 10 then [DigitChar(n)]
    else DecimalString(n / 10) + [DigitChar(n % 10)]
  }

  function DigitValue(c: char): nat
  {
    if '0' <= c <= '9' then (c - '0') as nat else 0
  }

  /** The value of a string of decimal digits. */
  function ParseDecimal(s: string): nat
  {
    if s == [] then 0
    else ParseDecimal(s[..|s| - 1]) * 10 + DigitValue(s[|s| - 1])
  }

  /** Reading the decimal string back gives the number. */
  lemma {:induction false} ParseDecimalString(n: nat)
    ensures ParseDecimal(DecimalString(n)) == n
    decreases n
  {
    var s := DecimalString(n);
    if n >= 10 {
      ParseDecimalString(n / 10);
      assert s[..|s| - 1] == DecimalString(n / 10);
    }
  }

  /** A decimal string is a non-empty string of digits without a leading
      zero (other than "0" itself). */
  lemma {:induction false} DecimalStringDigits(n: nat)
    ensures |DecimalString(n)| > 0
    ensures forall i :: 0 <= i < |DecimalString(n)| ==> '0' <= DecimalString(n)[i] <= '9'
    ensures DecimalString(n)[0] == '0' ==> n == 0
    decreases n
  {
    if n >= 10 {
      DecimalStringDigits(n / 10);
    }
  }

  /** Different numbers get different labels. */
  lemma DecimalStringInjective(m: nat, n: nat)
    requires DecimalString(m) == DecimalString(n)
    ensures m == n
  {
    ParseDecimalString(m);
    ParseDecimalString(n);
  }

  /** makeTimeAxis(length): the labels "0", "1", ..., written into a fresh
      array. */
  method MakeTimeAxis(length: nat) returns (axis: seq<string>)
    ensures |axis| == length
    ensures forall i :: 0 <= i < length ==> axis[i] == DecimalString(i)
  {
    var a := new string[length];
    for i := 0 to length
      invariant forall k :: 0 <= k < i ==> a[k] == DecimalString(k)
    {
      a[i] := DecimalString(i);
    }
    axis := a[..];
  }
}
