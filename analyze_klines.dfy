/**
  The descriptive K-line analyser: attaches a 14-period EMA to every candle,
  counts candles above, below and across their EMA, and cuts the candle
  sequence into uptrend, downtrend and oscillation runs whose lengths it
  reduces to count, average, maximum and minimum.
 */
module AnalyzeKlines {
  import opened Indicators

  /** A K-line with its EMA attached. */
  datatype Candle = Candle(kline: Kline, ema: real)

  function EmaOf(candles: seq<Candle>): (emas: seq<real>)
    ensures |emas| == |candles|
    ensures forall i :: 0 <= i < |candles| ==> emas[i] == candles[i].ema
  {
    seq(|candles|, i requires 0 <= i < |candles| => candles[i].ema)
  }

  /**
    Attaches to every K-line the EMA of the closes so far, computed with the
    update (close - ema) * k + ema. On an empty input the first candle does
    not exist and there is no result.
   */
  method CalculateEma(data: seq<Kline>, period: nat) returns (r: Option<seq<Candle>>)
    ensures r.None? <==> |data| == 0
    ensures r.Some? ==> |r.value| == |data| && forall i :: 0 <= i < |data| ==> r.value[i].kline == data[i]
    ensures r.Some? ==> IsEmaSeries(Closes(data), Smoothing(period), EmaOf(r.value))
  {
    if |data| == 0 {
      return None;
    }
    var k := Smoothing(period);
    var ema := data[0].close;
    var emaResults := [Candle(data[0], ema)];
    for i := 1 to |data|
      invariant |emaResults| == i && emaResults[i - 1].ema == ema
      invariant forall j :: 0 <= j < i ==> emaResults[j].kline == data[j]
      invariant emaResults[0].ema == data[0].close
      invariant forall j :: 0 < j < i ==> emaResults[j].ema == EmaStep(emaResults[j - 1].ema, data[j].close, k)
    {
      var close := data[i].close;
      AnalyzerStepAgrees(ema, close, k);
      ema := (close - ema) * k + ema;
      emaResults := emaResults + [Candle(data[i], ema)];
    }
    r := Some(emaResults);
  }

  /** Position of a candle against its EMA: 1 when open and close are both above, -1 both below, 0 across. */
  function CandleState(c: Candle): (state: int)
    ensures state == 1 || state == -1 || state == 0
    ensures state == 1 <==> c.kline.open > c.ema && c.kline.close > c.ema
    ensures state == -1 <==> c.kline.open < c.ema && c.kline.close < c.ema
  {
    if c.kline.open > c.ema && c.kline.close > c.ema then 1
    else if c.kline.open < c.ema && c.kline.close < c.ema then -1
    else 0
  }

  /** The number of candles whose state is `state`. */
  function CountState(data: seq<Candle>, state: int): nat
  {
    if data == [] then 0
    else CountState(data[..|data| - 1], state) + (if CandleState(data[|data| - 1]) == state then 1 else 0)
  }

  /** Every candle has exactly one of the three states, so the three counts add up to the number of candles. */
  lemma {:induction false} StatesPartitionCandles(data: seq<Candle>)
    ensures CountState(data, 1) + CountState(data, -1) + CountState(data, 0) == |data|
  {
    if data != [] {
      StatesPartitionCandles(data[..|data| - 1]);
    }
  }

  datatype EmaRelationship = EmaRelationship(totalCandles: nat, aboveEma: nat, belowEma: nat, crossingEma: nat)

  /** Counts the candles above, below and across their EMA. */
  method AnalyzeEmaRelationship(data: seq<Candle>) returns (r: EmaRelationship)
    ensures r.totalCandles == |data|
    ensures r.aboveEma == CountState(data, 1)
    ensures r.belowEma == CountState(data, -1)
    ensures r.crossingEma == CountState(data, 0)
    ensures r.aboveEma + r.belowEma + r.crossingEma == r.totalCandles
  {
    var aboveEma, belowEma, crossingEma := 0, 0, 0;
    for i := 0 to |data|
      invariant aboveEma == CountState(data[..i], 1)
      invariant belowEma == CountState(data[..i], -1)
      invariant crossingEma == CountState(data[..i], 0)
    {
      assert data[..i + 1][..i] == data[..i];
      var candle := data[i];
      if candle.kline.open > candle.ema && candle.kline.close > candle.ema {
        aboveEma := aboveEma + 1;
      } else if candle.kline.open < candle.ema && candle.kline.close < candle.ema {
        belowEma := belowEma + 1;
      } else {
        crossingEma := crossingEma + 1;
      }
    }
    assert data[..|data|] == data;
    StatesPartitionCandles(data);
    r := EmaRelationship(|data|, aboveEma, belowEma, crossingEma);
  }

  /** The state of every candle, in order. */
  function CandleStates(data: seq<Candle>): (states: seq<int>)
    ensures |states| == |data|
    ensures forall i :: 0 <= i < |data| ==> states[i] == CandleState(data[i])
  {
    seq(|data|, i requires 0 <= i < |data| => CandleState(data[i]))
  }

  datatype Trend = Uptrend | Downtrend | Oscillation

  /** The trend a run starts with, from a candle's state and its neighbour's: two 1s up, two -1s down, else oscillation. */
  function TrendOf(state: int, neighbour: int): (trend: Trend)
    ensures trend == Uptrend <==> state == 1 && neighbour == 1
    ensures trend == Downtrend <==> state == -1 && neighbour == -1
  {
    if state == 1 && neighbour == 1 then Uptrend
    else if state == -1 && neighbour == -1 then Downtrend
    else Oscillation
  }

  /** A maximal run of the segmentation: its trend, first candle and length. */
  datatype Segment = Segment(trend: Trend, start: nat, length: nat)

  /** The segments lie end to end from candle 0 up to `end`, each at least one candle long. */
  ghost predicate Tiles(segments: seq<Segment>, end: nat)
  {
    if segments == [] then end == 0
    else
      var last := segments[|segments| - 1];
      && last.length >= 1
      && last.start + last.length == end
      && Tiles(segments[..|segments| - 1], last.start)
  }

  /** Every candle of an uptrend segment is above its EMA, every candle of a downtrend one below. */
  ghost predicate Homogeneous(states: seq<int>, seg: Segment)
  {
    seg.trend != Oscillation ==>
      && seg.start + seg.length <= |states|
      && forall k :: seg.start <= k < seg.start + seg.length ==>
           states[k] == (if seg.trend == Uptrend then 1 else -1)
  }

  /**
    The trend a run opened at candle `start` takes: judged with the next candle,
    or, at the last candle, with the previous one; a lone first candle (or none)
    opens an oscillation.
   */
  function OpeningTrend(states: seq<int>, start: nat): (trend: Trend)
    ensures start + 1 < |states| ==> trend == TrendOf(states[start], states[start + 1])
    ensures start + 1 == |states| && start > 0 ==> trend == TrendOf(states[start], states[start - 1])
    ensures trend == Uptrend ==> start < |states| && states[start] == 1
    ensures trend == Downtrend ==> start < |states| && states[start] == -1
  {
    if start + 1 < |states| then TrendOf(states[start], states[start + 1])
    else if 0 < start < |states| then TrendOf(states[start], states[start - 1])
    else Oscillation
  }

  /**
    Candle `k` continues a run of `trend`: it stays above (below) the EMA for an
    uptrend (downtrend); for an oscillation it does not sit on the same side as
    its predecessor.
   */
  predicate Continues(states: seq<int>, trend: Trend, k: nat)
    requires 0 < k < |states|
  {
    match trend
    case Uptrend => states[k] == 1
    case Downtrend => states[k] == -1
    case Oscillation => !((states[k] == 1 && states[k - 1] == 1) || (states[k] == -1 && states[k - 1] == -1))
  }

  /** A run opened by the rule whose every later candle continues it. */
  ghost predicate Opened(states: seq<int>, seg: Segment)
  {
    && seg.trend == OpeningTrend(states, seg.start)
    && forall k :: seg.start < k < seg.start + seg.length && k < |states| ==> Continues(states, seg.trend, k)
  }

  /** An opened run that is maximal: the candle after it, if any, breaks it. */
  ghost predicate RunOk(states: seq<int>, seg: Segment)
  {
    && Opened(states, seg)
    && (0 < seg.start + seg.length < |states| ==> !Continues(states, seg.trend, seg.start + seg.length))
  }

  /** Two maximal runs from the same candle within the candles are the same run. */
  lemma RunDeterminedByStart(states: seq<int>, a: Segment, b: Segment)
    requires RunOk(states, a) && RunOk(states, b) && a.start == b.start
    requires a.length >= 1 && b.length >= 1
    requires a.start + a.length <= |states| && b.start + b.length <= |states|
    ensures a == b
  {
  }

  /** The lengths of the segments of one trend, in order. */
  function LengthsOf(segments: seq<Segment>, trend: Trend): seq<nat>
  {
    if segments == [] then []
    else
      var last := segments[|segments| - 1];
      LengthsOf(segments[..|segments| - 1], trend) + (if last.trend == trend then [last.length] else [])
  }

  function Sum(s: seq<nat>): nat
  {
    if s == [] then 0 else Sum(s[..|s| - 1]) + s[|s| - 1]
  }

  /** Where the segments of a tiling lie: the first at candle 0, each right after the one before. */
  lemma {:induction false} TilesBounds(segments: seq<Segment>, end: nat)
    requires Tiles(segments, end)
    ensures forall j :: 0 <= j < |segments| ==>
              segments[j].length >= 1 && segments[j].start + segments[j].length <= end
    ensures |segments| > 0 ==> segments[0].start == 0
    ensures forall j :: 0 < j < |segments| ==> segments[j].start == segments[j - 1].start + segments[j - 1].length
    ensures |segments| > 0 <==> end > 0
    ensures |segments| > 0 ==> segments[|segments| - 1].start + segments[|segments| - 1].length == end
  {
    if segments != [] {
      var init := segments[..|segments| - 1];
      TilesBounds(init, segments[|segments| - 1].start);
    }
  }

  /** The run rule leaves no choice: two tilings of the same candles by maximal runs are the same. */
  lemma SegmentationUnique(states: seq<int>, a: seq<Segment>, b: seq<Segment>)
    requires Tiles(a, |states|) && Tiles(b, |states|)
    requires forall j :: 0 <= j < |a| ==> RunOk(states, a[j])
    requires forall j :: 0 <= j < |b| ==> RunOk(states, b[j])
    ensures a == b
  {
    TilesBounds(a, |states|);
    TilesBounds(b, |states|);
    if |states| > 0 {
      var j := 0;
      while j < |a| && j < |b|
        invariant 0 <= j <= |a| && j <= |b|
        invariant forall i :: 0 <= i < j ==> a[i] == b[i]
      {
        assert a[j].start == b[j].start by {
          if j > 0 {
            assert a[j - 1] == b[j - 1];
          }
        }
        RunDeterminedByStart(states, a[j], b[j]);
        j := j + 1;
      }
      // both tilings reach the last candle with their j-th segment, so neither has more
      assert a[j - 1] == b[j - 1];
      assert a[j - 1].start + a[j - 1].length == |states|;
      assert j == |a| && j == |b|;
    }
  }

  /** Three candles above the EMA make one uptrend of three candles and nothing else. */
  lemma ThreeAboveIsOneUptrend(segments: seq<Segment>)
    requires Tiles(segments, 3)
    requires forall j :: 0 <= j < |segments| ==> RunOk([1, 1, 1], segments[j])
    ensures segments == [Segment(Uptrend, 0, 3)]
  {
    var up := [Segment(Uptrend, 0, 3)];
    assert Tiles(up, 3) by {
      assert up[..0] == [];
    }
    assert RunOk([1, 1, 1], up[0]);
    SegmentationUnique([1, 1, 1], segments, up);
  }

  /** Every recorded duration is at least one candle. */
  lemma {:induction false} LengthsPositive(segments: seq<Segment>, end: nat, trend: Trend)
    requires Tiles(segments, end)
    ensures forall d :: d in LengthsOf(segments, trend) ==> d >= 1
  {
    if segments != [] {
      var last := segments[|segments| - 1];
      LengthsPositive(segments[..|segments| - 1], last.start, trend);
    }
  }

  /** The durations of the three trends together cover exactly the tiled candles. */
  lemma {:induction false} DurationsCoverTiling(segments: seq<Segment>, end: nat)
    requires Tiles(segments, end)
    ensures Sum(LengthsOf(segments, Uptrend)) + Sum(LengthsOf(segments, Downtrend))
              + Sum(LengthsOf(segments, Oscillation)) == end
  {
    if segments != [] {
      var init := segments[..|segments| - 1];
      var last := segments[|segments| - 1];
      DurationsCoverTiling(init, last.start);
      forall trend: Trend
        ensures Sum(LengthsOf(segments, trend)) ==
                  Sum(LengthsOf(init, trend)) + (if last.trend == trend then last.length else 0)
      {
        if last.trend == trend {
          SumAppend(LengthsOf(init, trend), last.length);
        } else {
          assert LengthsOf(segments, trend) == LengthsOf(init, trend) + [];
          assert LengthsOf(init, trend) + [] == LengthsOf(init, trend);
        }
      }
    }
  }

  /** All facts the trend statistics draw from a tiling, in one place. */
  lemma DurationsOfTiling(segments: seq<Segment>, end: nat)
    requires Tiles(segments, end)
    ensures forall d :: d in LengthsOf(segments, Uptrend) ==> d >= 1
    ensures forall d :: d in LengthsOf(segments, Downtrend) ==> d >= 1
    ensures forall d :: d in LengthsOf(segments, Oscillation) ==> d >= 1
    ensures Sum(LengthsOf(segments, Uptrend)) + Sum(LengthsOf(segments, Downtrend))
              + Sum(LengthsOf(segments, Oscillation)) == end
  {
    LengthsPositive(segments, end, Uptrend);
    LengthsPositive(segments, end, Downtrend);
    LengthsPositive(segments, end, Oscillation);
    DurationsCoverTiling(segments, end);
  }

  lemma SumAppend(s: seq<nat>, x: nat)
    ensures Sum(s + [x]) == Sum(s) + x
  {
    assert (s + [x])[..|s|] == s;
  }

  /** Adding a segment at the end extends the trend's list of lengths by exactly that segment's length. */
  lemma LengthsOfAppend(segments: seq<Segment>, seg: Segment, trend: Trend)
    ensures LengthsOf(segments + [seg], trend) ==
              LengthsOf(segments, trend) + (if seg.trend == trend then [seg.length] else [])
  {
    assert (segments + [seg])[..|segments|] == segments;
  }

  /** The three lists of run lengths the analyser keeps, one per trend. */
  datatype TrendDurations = TrendDurations(uptrends: seq<nat>, downtrends: seq<nat>, oscillations: seq<nat>)

  /** Records a finished run: its length goes onto the list of its trend. */
  function Push(trends: TrendDurations, trend: Trend, count: nat): TrendDurations
  {
    match trend
    case Uptrend => trends.(uptrends := trends.uptrends + [count])
    case Downtrend => trends.(downtrends := trends.downtrends + [count])
    case Oscillation => trends.(oscillations := trends.oscillations + [count])
  }

  /** The three lists that a sequence of segments gives rise to. */
  ghost function DurationsOf(segments: seq<Segment>): TrendDurations
  {
    TrendDurations(LengthsOf(segments, Uptrend), LengthsOf(segments, Downtrend), LengthsOf(segments, Oscillation))
  }

  /** Closing a run appends one segment to the tiling and its length to the list of its trend only. */
  lemma CloseRun(segments: seq<Segment>, seg: Segment)
    requires Tiles(segments, seg.start) && seg.length >= 1
    ensures Tiles(segments + [seg], seg.start + seg.length)
    ensures DurationsOf(segments + [seg]) == Push(DurationsOf(segments), seg.trend, seg.length)
  {
    LengthsOfAppend(segments, seg, Uptrend);
    LengthsOfAppend(segments, seg, Downtrend);
    LengthsOfAppend(segments, seg, Oscillation);
    TilesAppend(segments, seg);
  }

  /**
    The segmentation state after scanning the candles before `run.start + run.length`:
    the closed segments tile the candles before the open `run`, every segment keeps
    to its side of the EMA, and the three lists hold exactly the closed runs.
   */
  ghost predicate Scanned(states: seq<int>, segments: seq<Segment>, trends: TrendDurations, run: Segment)
  {
    && Tiles(segments, run.start) && run.length >= 1
    && (forall j :: 0 <= j < |segments| ==> Homogeneous(states, segments[j]) && RunOk(states, segments[j]))
    && Homogeneous(states, run) && Opened(states, run)
    && trends == DurationsOf(segments)
  }

  /** A candle on the run's own side of the EMA (any candle, for an oscillation) extends the open run. */
  lemma ExtendRun(states: seq<int>, segments: seq<Segment>, trends: TrendDurations, run: Segment)
    requires Scanned(states, segments, trends, run)
    requires run.start + run.length < |states|
    requires Continues(states, run.trend, run.start + run.length)
    ensures Scanned(states, segments, trends, run.(length := run.length + 1))
  {
  }

  /** Closing the open run and opening a new one of length 1 at the next candle keeps the state consistent. */
  lemma StartRun(states: seq<int>, segments: seq<Segment>, trends: TrendDurations, run: Segment, trend: Trend)
    requires Scanned(states, segments, trends, run)
    requires run.start + run.length < |states|
    requires !Continues(states, run.trend, run.start + run.length)
    requires trend == OpeningTrend(states, run.start + run.length)
    ensures Scanned(states, segments + [run], Push(trends, run.trend, run.length),
                    Segment(trend, run.start + run.length, 1))
  {
    CloseRun(segments, run);
  }

  /** Closing the final run, which ends at the last candle, completes a tiling with all its facts. */
  lemma CloseLastRun(states: seq<int>, segments: seq<Segment>, last: Segment, trends: TrendDurations)
    requires Scanned(states, segments, trends, last)
    requires last.start + last.length >= |states|
    ensures Tiles(segments + [last], last.start + last.length)
    ensures forall j :: 0 <= j < |segments| + 1 ==>
              Homogeneous(states, (segments + [last])[j]) && RunOk(states, (segments + [last])[j])
    ensures Push(trends, last.trend, last.length) == DurationsOf(segments + [last])
    ensures var t := Push(trends, last.trend, last.length);
              && (forall d :: d in t.uptrends ==> d >= 1)
              && (forall d :: d in t.downtrends ==> d >= 1)
              && (forall d :: d in t.oscillations ==> d >= 1)
              && Sum(t.uptrends) + Sum(t.downtrends) + Sum(t.oscillations) == last.start + last.length
  {
    CloseRun(segments, last);
    DurationsOfTiling(segments + [last], last.start + last.length);
  }

  lemma TilesAppend(segments: seq<Segment>, seg: Segment)
    requires Tiles(segments, seg.start) && seg.length >= 1
    ensures Tiles(segments + [seg], seg.start + seg.length)
  {
    assert (segments + [seg])[..|segments|] == segments;
  }

  datatype DurationStats = DurationStats(count: nat, durations: seq<nat>, averageDuration: real,
                                         maxDuration: nat, minDuration: nat)

  datatype TrendStats = TrendStats(uptrends: DurationStats, downtrends: DurationStats, oscillations: DurationStats)

  function MaxOf(s: seq<nat>): (m: nat)
    requires |s| > 0
    ensures m in s && forall x :: x in s ==> x <= m
  {
    if |s| == 1 then s[0]
    else
      var rest := MaxOf(s[..|s| - 1]);
      assert forall x :: x in s ==> x in s[..|s| - 1] || x == s[|s| - 1];
      if s[|s| - 1] > rest then s[|s| - 1] else rest
  }

  function MinOf(s: seq<nat>): (m: nat)
    requires |s| > 0
    ensures m in s && forall x :: x in s ==> m <= x
  {
    if |s| == 1 then s[0]
    else
      var rest := MinOf(s[..|s| - 1]);
      assert forall x :: x in s ==> x in s[..|s| - 1] || x == s[|s| - 1];
      if s[|s| - 1] < rest then s[|s| - 1] else rest
  }

  /** The arithmetic mean of `count` values adding up to `total`. */
  function Mean(total: nat, count: nat): (m: real)
    requires count > 0
    ensures m * count as real == total as real
    ensures 0.0 <= m <= total as real
  {
    total as real / count as real
  }

  /** The statistics of one trend's durations; all zero when there are none. */
  function Summarize(durations: seq<nat>): (st: DurationStats)
    ensures st.count == |durations| && st.durations == durations
    ensures |durations| == 0 ==>
              st.averageDuration == 0.0 && st.maxDuration == 0 && st.minDuration == 0
    ensures |durations| > 0 ==>
              && st.minDuration <= st.maxDuration
              && st.minDuration in durations && st.maxDuration in durations
              && (forall d :: d in durations ==> st.minDuration <= d <= st.maxDuration)
              && st.averageDuration * |durations| as real == Sum(durations) as real
  {
    if |durations| > 0 then
      var average := Mean(Sum(durations), |durations|);
      var max, min := MaxOf(durations), MinOf(durations);
      assert min <= max by { assert min in durations; }
      DurationStats(|durations|, durations, average, max, min)
    else
      DurationStats(0, durations, 0.0, 0, 0)
  }

  /**
    The run-length segmentation of the candle states. A run starts as an
    uptrend (downtrend) when its first candle and the next are both above
    (below) the EMA, and lasts while candles stay on that side; otherwise it is
    an oscillation, which lasts until two consecutive candles sit on the same
    side. The last candle, having no successor, is judged with its predecessor.
    The ghost `segments` is the run decomposition the three lists come from.
    On an empty input the initial oscillation run of length 1 is still recorded.
   */
  method SegmentTrends(candleStates: seq<int>) returns (trends: TrendDurations, ghost segments: seq<Segment>)
    ensures Tiles(segments, if |candleStates| == 0 then 1 else |candleStates|)
    ensures forall j :: 0 <= j < |segments| ==> Homogeneous(candleStates, segments[j])
    ensures forall j :: 0 <= j < |segments| ==> RunOk(candleStates, segments[j])
    ensures trends == DurationsOf(segments)
    ensures forall d :: d in trends.uptrends ==> d >= 1
    ensures forall d :: d in trends.downtrends ==> d >= 1
    ensures forall d :: d in trends.oscillations ==> d >= 1
    ensures |candleStates| > 0 ==>
              Sum(trends.uptrends) + Sum(trends.downtrends) + Sum(trends.oscillations) == |candleStates|
    ensures |candleStates| == 0 ==> trends == TrendDurations([], [], [1])
  {
    var n := |candleStates|;
    trends := TrendDurations([], [], []);
    segments := [];

    var currentTrend := OpeningTrend(candleStates, 0);
    var currentTrendStart := 0;
    var consecutiveCount := 1;

    var i := 1;
    while i < n
      invariant 1 <= i <= (if n == 0 then 1 else n)
      invariant n == 0 ==> segments == [] && trends == TrendDurations([], [], []) && currentTrend == Oscillation
      invariant currentTrendStart < i && consecutiveCount == i - currentTrendStart
      invariant Scanned(candleStates, segments, trends, Segment(currentTrend, currentTrendStart, consecutiveCount))
    {
      var currentState := candleStates[i];
      var previousState := candleStates[i - 1];
      ghost var run := Segment(currentTrend, currentTrendStart, consecutiveCount);
      if currentTrend == Uptrend && currentState == 1 {
        ExtendRun(candleStates, segments, trends, run);
        consecutiveCount := consecutiveCount + 1;
      } else if currentTrend == Downtrend && currentState == -1 {
        ExtendRun(candleStates, segments, trends, run);
        consecutiveCount := consecutiveCount + 1;
      } else if currentTrend == Oscillation &&
                !((currentState == 1 && previousState == 1) || (currentState == -1 && previousState == -1)) {
        ExtendRun(candleStates, segments, trends, run);
        consecutiveCount := consecutiveCount + 1;
      } else {
        // the run ends before candle i
        ghost var closedSegments, closedTrends := segments, trends;
        trends := Push(trends, currentTrend, consecutiveCount);
        segments := segments + [run];
        currentTrend := OpeningTrend(candleStates, i);
        StartRun(candleStates, closedSegments, closedTrends, run, currentTrend);
        consecutiveCount := 1;
        currentTrendStart := i;
      }
      i := i + 1;
    }

    var last := Segment(currentTrend, currentTrendStart, consecutiveCount);
    CloseLastRun(candleStates, segments, last, trends);
    trends := Push(trends, currentTrend, consecutiveCount);
    segments := segments + [last];
    if n == 0 {
      assert [] + [1] == [1];
    }
  }

  /**
    Classifies the candles, segments them into runs and reduces each trend's
    run lengths to its statistics.
   */
  method AnalyzeTrends(data: seq<Candle>) returns (trendStats: TrendStats, ghost segments: seq<Segment>)
    ensures Tiles(segments, if |data| == 0 then 1 else |data|)
    ensures forall j :: 0 <= j < |segments| ==> Homogeneous(CandleStates(data), segments[j])
    ensures forall j :: 0 <= j < |segments| ==> RunOk(CandleStates(data), segments[j])
    ensures trendStats.uptrends == Summarize(LengthsOf(segments, Uptrend))
    ensures trendStats.downtrends == Summarize(LengthsOf(segments, Downtrend))
    ensures trendStats.oscillations == Summarize(LengthsOf(segments, Oscillation))
    ensures |data| > 0 ==>
              Sum(trendStats.uptrends.durations) + Sum(trendStats.downtrends.durations)
                + Sum(trendStats.oscillations.durations) == |data|
  {
    var candleStates := CandleStates(data);
    var trends;
    trends, segments := SegmentTrends(candleStates);
    trendStats := TrendStats(Summarize(trends.uptrends), Summarize(trends.downtrends),
                             Summarize(trends.oscillations));
  }
}
