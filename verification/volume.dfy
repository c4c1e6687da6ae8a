/** Volume analytics and the volume-based entry filter of the trading bot
    (pt_volume.py): moving averages, VWAP, z-score anomalies, trend labels,
    the bounded volume history of VolumeAnalyzer, volume profiles, the
    ordered cascade of VolumeFilter checks, and the chunking of candle
    requests. Floats are idealised as reals. */
module Volume {
  import opened Collections

  /** One OHLCV candle. */
  datatype Candle = Candle(timestamp: int, open: real, high: real, low: real, close: real, volume: real)

  datatype Trend = Increasing | Decreasing | Stable

  /** The source's anomaly_type string: "", "high_volume" or "low_volume". */
  datatype AnomalyType = NoAnomaly | HighVolume | LowVolume

  datatype VolumeMetrics = VolumeMetrics(
    timestamp: int,
    volume: real,
    volumeSma: real,
    volumeEma: real,
    vwap: real,
    volumeRatio: real,
    zScore: real,
    trend: Trend,
    anomaly: bool,
    anomalyType: AnomalyType)

  function Volumes(candles: seq<Candle>): (vs: seq<real>)
    ensures |vs| == |candles|
    ensures forall i :: 0 <= i < |candles| ==> vs[i] == candles[i].volume
  {
    seq(|candles|, i requires 0 <= i < |candles| => candles[i].volume)
  }

  // ---------------------------------------------------------------------------
  // VolumeAnalyzer's statistics
  // ---------------------------------------------------------------------------

  /** calculate_sma: the mean of the last `period` values, or of all of them
      when there are fewer; 0.0 for no values. A period below 1 makes the
      source divide by zero. */
  function Sma(values: seq<real>, period: int): (r: real)
    requires period >= 1
    ensures values == [] ==> r == 0.0
    ensures values != [] ==> r == Mean(values[|values| - MinInt(period, |values|)..])
  {
    if |values| < period then
      (if values == [] then 0.0 else Sum(values) / |values| as real)
    else
      Sum(PySliceFrom(values, -period)) / period as real
  }

  /** The SMA lies between the smallest and the largest value of the input. */
  lemma SmaWithinRange(values: seq<real>, period: int, lo: real, hi: real)
    requires period >= 1 && values != []
    requires forall i :: 0 <= i < |values| ==> lo <= values[i] <= hi
    ensures lo <= Sma(values, period) <= hi
  {
    var w := values[|values| - MinInt(period, |values|)..];
    assert forall i :: 0 <= i < |w| ==> w[i] == values[|values| - |w| + i];
    MeanBounds(w, lo, hi);
  }

  /** calculate_ema: the current value when there is no previous EMA, otherwise
      the blend with multiplier 2/(period+1). */
  function Ema(current: real, prevEma: Option<real>, period: int): (r: real)
    requires prevEma.Some? ==> period != -1
    ensures prevEma.None? ==> r == current
    ensures prevEma.Some? && prevEma.value == current ==> r == current
    ensures prevEma.Some? ==> (r - prevEma.value) * (period + 1) as real == 2.0 * (current - prevEma.value)
  {
    match prevEma
    case None => current
    case Some(prev) =>
      var multiplier := 2.0 / (period + 1) as real;
      EmaStep(current, prev, (period + 1) as real, multiplier);
      current * multiplier + prev * (1.0 - multiplier)
  }

  /** The blend with multiplier m = 2/d moves prev towards current by 2/d of
      the gap. */
  lemma EmaStep(current: real, prev: real, d: real, m: real)
    requires d != 0.0 && m == 2.0 / d
    ensures (current * m + prev * (1.0 - m) - prev) * d == 2.0 * (current - prev)
  {
    calc {
      (current * m + prev * (1.0 - m) - prev) * d;
      m * (current - prev) * d;
      (m * d) * (current - prev);
      2.0 * (current - prev);
    }
  }

  /** For a period of at least 1 the EMA is a convex combination: it lies
      between the current value and the previous EMA. */
  lemma EmaBetween(current: real, prev: real, period: int)
    requires period >= 1
    ensures Min(current, prev) <= Ema(current, Some(prev), period) <= Max(current, prev)
  {
    var m := 2.0 / (period + 1) as real;
    assert 0.0 < m <= 1.0;
    var r := Ema(current, Some(prev), period);
    assert r == prev + m * (current - prev);
    if current >= prev {
      ScaleMonotone(0.0, current - prev, m);
      ScaleMonotone(m, 1.0, current - prev);
    } else {
      ScaleMonotone(0.0, prev - current, m);
      ScaleMonotone(m, 1.0, prev - current);
    }
  }

  /** calculate_vwap: sum(price * volume) / sum(volume), and 0.0 for empty or
      mismatched inputs or a total volume that is not positive. */
  function Vwap(prices: seq<real>, volumes: seq<real>): (r: real)
    ensures prices == [] || volumes == [] || |prices| != |volumes| ==> r == 0.0
    ensures |prices| == |volumes| && Sum(volumes) <= 0.0 ==> r == 0.0
    ensures |prices| == |volumes| && Sum(volumes) > 0.0 ==> r * Sum(volumes) == Dot(prices, volumes)
  {
    if prices == [] || volumes == [] || |prices| != |volumes| then 0.0
    else
      var totalVolume := Sum(volumes);
      if totalVolume > 0.0 then Dot(prices, volumes) / totalVolume else 0.0
  }

  /** With nonnegative volumes and a positive total, the VWAP lies between
      the lowest and the highest price. */
  lemma VwapWithinPriceRange(prices: seq<real>, volumes: seq<real>, lo: real, hi: real)
    requires |prices| == |volumes|
    requires forall i :: 0 <= i < |volumes| ==> 0.0 <= volumes[i]
    requires Sum(volumes) > 0.0
    requires forall i :: 0 <= i < |prices| ==> lo <= prices[i] <= hi
    ensures lo <= Vwap(prices, volumes) <= hi
  {
    var dot, total := Dot(prices, volumes), Sum(volumes);
    DotBounds(prices, volumes, lo, hi);
    assert Vwap(prices, volumes) == dot / total;
    WeightedQuotientBounds(dot, total, lo, hi);
  }

  /** calculate_z_score: 0.0 for a zero deviation, otherwise (value - mean) / std. */
  function ZScore(value: real, mean: real, std: real): (z: real)
    ensures std == 0.0 ==> z == 0.0
    ensures std != 0.0 ==> z * std == value - mean
  {
    if std == 0.0 then 0.0 else (value - mean) / std
  }

  /** With a positive deviation, the z-score exceeds k exactly when the value
      lies more than k deviations above the mean (and symmetrically below). */
  lemma ZScoreThreshold(value: real, mean: real, std: real, k: real)
    requires std > 0.0
    ensures ZScore(value, mean, std) > k <==> value - mean > k * std
    ensures ZScore(value, mean, std) < -k <==> value - mean < -k * std
  {
    var z := ZScore(value, mean, std);
    assert z * std == value - mean;
    if z > k { ScaleMonotone(k, z, std); }
    if z <= k { ScaleMonotone(z, k, std); }
    if z < -k { ScaleMonotone(z, -k, std); }
    if z >= -k { ScaleMonotone(-k, z, std); }
  }

  /** The two halves compared by detect_trend: the averages of the older
      floor(minPeriods/2) and of the newer remaining values among the last
      minPeriods volumes. */
  function HalfAverages(volumes: seq<real>, minPeriods: int): (r: (real, real))
    requires minPeriods >= 2 && |volumes| >= minPeriods
    ensures var recent, half := volumes[|volumes| - minPeriods..], minPeriods / 2;
      && 1 <= half < minPeriods
      && r.0 * half as real == Sum(recent[..half])
      && r.1 * (minPeriods - half) as real == Sum(recent[half..])
  {
    var recent := PySliceFrom(volumes, -minPeriods);
    var half := minPeriods / 2;
    var older, newer := Sum(PySliceTo(recent, half)), Sum(PySliceFrom(recent, half));
    assert recent == volumes[|volumes| - minPeriods..];
    assert PySliceTo(recent, half) == recent[..half] && PySliceFrom(recent, half) == recent[half..];
    QuotientTimes(older, half as real);
    QuotientTimes(newer, (minPeriods - half) as real);
    (older / half as real, newer / (minPeriods - half) as real)
  }

  lemma QuotientTimes(x: real, n: real)
    requires n > 0.0
    ensures (x / n) * n == x
  {
  }

  /** detect_trend: the half-over-half change of the last minPeriods volumes,
      in percent, labelled beyond +/-10%. A minPeriods below 2 makes the source
      divide by zero; its only caller passes 5. */
  function DetectTrend(volumes: seq<real>, minPeriods: int): (r: Trend)
    requires minPeriods >= 2
    ensures |volumes| < minPeriods ==> r == Stable
  {
    if |volumes| < minPeriods then Stable
    else
      var (avgFirstHalf, avgSecondHalf) := HalfAverages(volumes, minPeriods);
      var changePct := ChangePct(avgFirstHalf, avgSecondHalf);
      if changePct > 10.0 then Increasing
      else if changePct < -10.0 then Decreasing
      else Stable
  }

  /** The percent change from the older half average to the newer one; 0
      when the older average is not positive. */
  function ChangePct(avgFirstHalf: real, avgSecondHalf: real): (r: real)
    ensures avgFirstHalf <= 0.0 ==> r == 0.0
    ensures avgFirstHalf > 0.0 ==> r * avgFirstHalf == (avgSecondHalf - avgFirstHalf) * 100.0
  {
    if avgFirstHalf > 0.0 then ((avgSecondHalf - avgFirstHalf) / avgFirstHalf) * 100.0 else 0.0
  }

  /** A change beyond +10% (below -10%) means the newer average exceeds 110%
      (is under 90%) of a positive older average. */
  lemma ChangeBeyondTenPercent(a1: real, a2: real)
    ensures ChangePct(a1, a2) > 10.0 <==> a1 > 0.0 && a2 > 1.1 * a1
    ensures ChangePct(a1, a2) < -10.0 <==> a1 > 0.0 && a2 < 0.9 * a1
  {
    if a1 > 0.0 {
      var c := ((a2 - a1) / a1) * 100.0;
      assert c * a1 == (a2 - a1) * 100.0;
      if c > 10.0 { ScaleMonotone(10.0, c, a1); }
      if c <= 10.0 { ScaleMonotone(c, 10.0, a1); }
      if c < -10.0 { ScaleMonotone(c, -10.0, a1); }
      if c >= -10.0 { ScaleMonotone(-10.0, c, a1); }
    }
  }

  /** The trend label in terms of the two half averages alone: increasing iff
      the newer half averages more than 110% of a positive older half,
      decreasing iff less than 90% of it, stable otherwise. */
  lemma TrendByRatio(volumes: seq<real>, minPeriods: int)
    requires minPeriods >= 2 && |volumes| >= minPeriods
    ensures var (a1, a2) := HalfAverages(volumes, minPeriods);
      && (DetectTrend(volumes, minPeriods) == Increasing <==> a1 > 0.0 && a2 > 1.1 * a1)
      && (DetectTrend(volumes, minPeriods) == Decreasing <==> a1 > 0.0 && a2 < 0.9 * a1)
      && (a1 <= 0.0 ==> DetectTrend(volumes, minPeriods) == Stable)
  {
    var (a1, a2) := HalfAverages(volumes, minPeriods);
    ChangeBeyondTenPercent(a1, a2);
  }

  /** The anomaly flag and type for a z-score, as analyze_candle sets them. */
  function ClassifyAnomaly(z: real): (r: (bool, AnomalyType))
    ensures r.0 <==> z > 2.5 || z < -2.5
    ensures r.1 == HighVolume <==> z > 2.5
    ensures r.1 == LowVolume <==> z < -2.5
  {
    if z > 2.5 then (true, HighVolume)
    else if z < -2.5 then (true, LowVolume)
    else (false, NoAnomaly)
  }

  function Prices(pairs: seq<(real, real)>): (r: seq<real>)
    ensures |r| == |pairs| && forall i :: 0 <= i < |pairs| ==> r[i] == pairs[i].0
  {
    seq(|pairs|, i requires 0 <= i < |pairs| => pairs[i].0)
  }

  function PairVolumes(pairs: seq<(real, real)>): (r: seq<real>)
    ensures |r| == |pairs| && forall i :: 0 <= i < |pairs| ==> r[i] == pairs[i].1
  {
    seq(|pairs|, i requires 0 <= i < |pairs| => pairs[i].1)
  }

  /** The VWAP window of analyze_candle: the last min(50, n) (close, volume) pairs. */
  function VwapWindow(priceVolumes: seq<(real, real)>): (w: seq<(real, real)>)
    ensures |w| == MinInt(50, |priceVolumes|)
    ensures w == priceVolumes[|priceVolumes| - |w|..]
  {
    PySliceFrom(priceVolumes, -MinInt(50, |priceVolumes|))
  }

  /** Current volume over its SMA, and 1.0 when the SMA is not positive. */
  function VolumeRatio(volume: real, sma: real): (r: real)
    ensures sma <= 0.0 ==> r == 1.0
    ensures sma > 0.0 ==> r * sma == volume
  {
    if sma > 0.0 then volume / sma else 1.0
  }

  /** The metrics analyze_candle returns once both histories hold the new
      candle. `sqrt` stands for math.sqrt, which is not modelled; it only
      feeds the z-score's deviation. */
  function CandleMetrics(candle: Candle, prevEma: Option<real>, smaPeriods: int, emaPeriods: int,
                         volumes: seq<real>, priceVolumes: seq<(real, real)>,
                         sqrt: real -> real): (m: VolumeMetrics)
    requires smaPeriods >= 1
    requires prevEma.Some? ==> emaPeriods != -1
    ensures m.timestamp == candle.timestamp && m.volume == candle.volume
    ensures m.volumeSma == Sma(volumes, smaPeriods)
    ensures m.volumeEma == Ema(candle.volume, prevEma, emaPeriods)
    ensures m.vwap == Vwap(Prices(VwapWindow(priceVolumes)), PairVolumes(VwapWindow(priceVolumes)))
    ensures m.volumeRatio == VolumeRatio(candle.volume, m.volumeSma)
    ensures |volumes| < 10 ==> m.zScore == 0.0
    ensures |volumes| >= 10 ==> m.zScore == ZScore(candle.volume, Mean(volumes), sqrt(PopVariance(volumes)))
    ensures m.trend == DetectTrend(volumes, 5)
    ensures m.anomaly <==> m.zScore > 2.5 || m.zScore < -2.5
    ensures m.anomalyType == HighVolume <==> m.zScore > 2.5
    ensures m.anomalyType == LowVolume <==> m.zScore < -2.5
  {
    var volumeSma := Sma(volumes, smaPeriods);
    var volumeEma := Ema(candle.volume, prevEma, emaPeriods);
    var window := VwapWindow(priceVolumes);
    var vwap := Vwap(Prices(window), PairVolumes(window));
    var volumeRatio := VolumeRatio(candle.volume, volumeSma);
    var zScore :=
      if |volumes| >= 10 then ZScore(candle.volume, Mean(volumes), sqrt(PopVariance(volumes))) else 0.0;
    var trend := DetectTrend(volumes, 5);
    var (anomaly, anomalyType) := ClassifyAnomaly(zScore);
    VolumeMetrics(candle.timestamp, candle.volume, volumeSma, volumeEma, vwap,
                  volumeRatio, zScore, trend, anomaly, anomalyType)
  }

  /** For a true standard deviation std (std >= 0, std * std == variance),
      |z| > k holds iff the variance is positive and the squared deviation
      exceeds k * k times the variance: no square root is needed. */
  lemma ZScoreBeyondWithoutRoots(value: real, mean: real, variance: real, std: real, k: real, kk: real, z: real, d: real)
    requires 0.0 <= std && std * std == variance && 0.0 <= k && kk == k * k
    requires z == ZScore(value, mean, std) && d == value - mean
    ensures (z > k || z < -k) <==> (variance > 0.0 && d * d > kk * variance)
  {
    if std == 0.0 {
      assert variance == 0.0;
    } else {
      ZScoreThreshold(value, mean, std, k);
      SquareExceeds(d, k * std);
      assert (k * std) * (k * std) == (k * k) * (std * std);
    }
  }

  /** When `sqrt` is a true square root, analyze_candle's anomaly test needs
      no root: with at least 10 volumes in the history, the candle is
      anomalous iff its squared deviation from the mean exceeds 6.25 times
      the variance. */
  lemma AnomalyWithoutRoots(volume: real, volumes: seq<real>, sqrt: real -> real)
    requires 0.0 <= sqrt(PopVariance(volumes))
    requires sqrt(PopVariance(volumes)) * sqrt(PopVariance(volumes)) == PopVariance(volumes)
    ensures var d := volume - Mean(volumes);
      var anomalous := ClassifyAnomaly(ZScore(volume, Mean(volumes), sqrt(PopVariance(volumes)))).0;
      anomalous <==> PopVariance(volumes) > 0.0 && d * d > 6.25 * PopVariance(volumes)
  {
    var variance, mean := PopVariance(volumes), Mean(volumes);
    var std := sqrt(variance);
    var z := ZScore(volume, mean, std);
    var d := volume - mean;
    ZScoreBeyondWithoutRoots(volume, mean, variance, std, 2.5, 6.25, z, d);
  }

  /** |d| > k iff d*d > k*k, for k >= 0. */
  lemma SquareExceeds(d: real, k: real)
    requires k >= 0.0
    ensures (d > k || d < -k) <==> d * d > k * k
  {
    if d > k {
      SquareGrows(d, k);
    } else if d < -k {
      assert (-d) * (-d) == d * d;
      SquareGrows(-d, k);
    } else {
      assert d * d - k * k == (d - k) * (d + k);
      ScaleMonotone(0.0, k - d, d + k);
    }
  }

  lemma SquareGrows(d: real, k: real)
    requires d > k >= 0.0
    ensures d * d > k * k
  {
    assert d * d - k * k == (d - k) * (d + k);
    ProductPositive(d - k, d + k);
  }

  lemma ProductPositive(a: real, b: real)
    requires a > 0.0 && b > 0.0
    ensures a * b > 0.0
  {
  }

  /** The VWAP that analyze_candle reports lies within the range of the closes
      of its window when the window's volumes are nonnegative and not all zero. */
  lemma CandleVwapWithinCloses(candle: Candle, prevEma: Option<real>, smaPeriods: int, emaPeriods: int,
                               volumes: seq<real>, priceVolumes: seq<(real, real)>,
                               sqrt: real -> real, lo: real, hi: real)
    requires smaPeriods >= 1
    requires prevEma.Some? ==> emaPeriods != -1
    requires forall i :: 0 <= i < |priceVolumes| ==> 0.0 <= priceVolumes[i].1
    requires forall i :: 0 <= i < |priceVolumes| ==> lo <= priceVolumes[i].0 <= hi
    requires Sum(PairVolumes(VwapWindow(priceVolumes))) > 0.0
    ensures lo <= CandleMetrics(candle, prevEma, smaPeriods, emaPeriods, volumes, priceVolumes, sqrt).vwap <= hi
  {
    var w := VwapWindow(priceVolumes);
    assert forall i :: 0 <= i < |w| ==> w[i] == priceVolumes[|priceVolumes| - |w| + i];
    VwapWithinPriceRange(Prices(w), PairVolumes(w), lo, hi);
  }

  /** Python's deque(maxlen=maxLen).append(x): the oldest element is dropped
      once the deque is full. */
  function DequeAppend(h: seq<real>, x: real, maxLen: int): (r: seq<real>)
    requires 1 <= maxLen && |h| <= maxLen
    ensures |r| == MinInt(|h| + 1, maxLen)
    ensures r == (h + [x])[|h| + 1 - |r|..]
    ensures r[|r| - 1] == x
  {
    var s := h + [x];
    if |s| > maxLen then s[|s| - maxLen..] else s
  }

  /** VolumeAnalyzer: a bounded history of volumes (a deque of length at most
      twice the larger period) and an unbounded list of (close, volume) pairs. */
  class VolumeAnalyzer {
    const smaPeriods: int
    const emaPeriods: int
    const maxLen: int
    var volumeHistory: seq<real>
    var priceVolumeHistory: seq<(real, real)>

    ghost predicate Valid()
      reads this
    {
      && smaPeriods >= 1
      && maxLen == MaxInt(smaPeriods, emaPeriods) * 2
      && |volumeHistory| <= maxLen
    }

    /** A period below 1 for the SMA makes every analysis divide by zero. */
    constructor (smaPeriods: int, emaPeriods: int)
      requires smaPeriods >= 1
      ensures Valid()
      ensures this.smaPeriods == smaPeriods && this.emaPeriods == emaPeriods
      ensures volumeHistory == [] && priceVolumeHistory == []
    {
      this.smaPeriods := smaPeriods;
      this.emaPeriods := emaPeriods;
      this.maxLen := MaxInt(smaPeriods, emaPeriods) * 2;
      volumeHistory := [];
      priceVolumeHistory := [];
    }

    /** analyze_candle: records the candle in both histories, then computes
        its metrics from the updated histories. */
    method AnalyzeCandle(candle: Candle, prevEma: Option<real>, sqrt: real -> real) returns (m: VolumeMetrics)
      requires Valid()
      requires prevEma.Some? ==> emaPeriods != -1
      modifies this
      ensures Valid()
      ensures volumeHistory == DequeAppend(old(volumeHistory), candle.volume, maxLen)
      ensures 0 < |volumeHistory| <= maxLen && volumeHistory[|volumeHistory| - 1] == candle.volume
      ensures priceVolumeHistory == old(priceVolumeHistory) + [(candle.close, candle.volume)]
      ensures m == CandleMetrics(candle, prevEma, smaPeriods, emaPeriods,
                                 volumeHistory, priceVolumeHistory, sqrt)
    {
      volumeHistory := DequeAppend(volumeHistory, candle.volume, maxLen);
      priceVolumeHistory := priceVolumeHistory + [(candle.close, candle.volume)];
      m := CandleMetrics(candle, prevEma, smaPeriods, emaPeriods,
                         volumeHistory, priceVolumeHistory, sqrt);
    }
  }

  // ---------------------------------------------------------------------------
  // Volume profile
  // ---------------------------------------------------------------------------

  /** The profile's period: "unknown", or the dates of the first and last candle
      (kept here as their timestamps). */
  datatype Period = Unknown | Span(first: int, last: int)

  datatype VolumeProfile = VolumeProfile(
    period: Period,
    avgVolume: real,
    medianVolume: real,
    p25Volume: real,
    p50Volume: real,
    p75Volume: real,
    p90Volume: real,
    stdVolume: real,
    totalVolume: real,
    candleCount: nat)

  const EmptyProfile := VolumeProfile(Unknown, 0.0, 0.0, 0.0, 0.0, 0.0, 0.0, 0.0, 0.0, 0)

  /** The sorted-list indices calculate_profile reads for p25, p50, p75 and
      p90; `int(count * q)` is floor(count * q) for these q. */
  function PercentileIndices(count: int): (r: (int, int, int, int))
    requires count >= 1
    ensures 0 <= r.0 <= r.1 <= r.2 <= r.3 < count
    ensures r.1 == count / 2
    ensures count >= 4 ==> 4 * r.0 <= count < 4 * r.0 + 4 && 4 * r.2 <= 3 * count < 4 * r.2 + 4
    ensures count < 4 ==> r.0 == 0 && r.2 == count - 1
    ensures count >= 10 ==> 10 * r.3 <= 9 * count < 10 * r.3 + 10
    ensures count < 10 ==> r.3 == count - 1
  {
    (if count >= 4 then count / 4 else 0,
     if count >= 2 then count / 2 else 0,
     if count >= 4 then (3 * count) / 4 else count - 1,
     if count >= 10 then (9 * count) / 10 else count - 1)
  }

  /** The four percentile readings of a nonempty ascending list, as
      calculate_profile takes them: each is an element of the list, they are
      in ascending order, p50 is the element at count // 2, and all four lie
      between the smallest and the largest element. */
  function Percentiles(sorted: seq<real>): (r: (real, real, real, real))
    requires sorted != [] && SortedBy(sorted, Identity)
    ensures r.0 <= r.1 <= r.2 <= r.3
    ensures r.1 == sorted[|sorted| / 2]
    ensures r.0 in sorted && r.1 in sorted && r.2 in sorted && r.3 in sorted
    ensures sorted[0] <= r.0 && r.3 <= sorted[|sorted| - 1]
    ensures var ix := PercentileIndices(|sorted|);
      r == (sorted[ix.0], sorted[ix.1], sorted[ix.2], sorted[ix.3])
  {
    var (i25, i50, i75, i90) := PercentileIndices(|sorted|);
    assert Identity(sorted[0]) <= Identity(sorted[i25]);
    assert Identity(sorted[i25]) <= Identity(sorted[i50]);
    assert Identity(sorted[i50]) <= Identity(sorted[i75]);
    assert Identity(sorted[i75]) <= Identity(sorted[i90]);
    assert Identity(sorted[i90]) <= Identity(sorted[|sorted| - 1]);
    (sorted[i25], sorted[i50], sorted[i75], sorted[i90])
  }

  /** A value found in a permutation of s is found in s. */
  lemma InPermutation(x: real, r: seq<real>, s: seq<real>)
    requires multiset(r) == multiset(s) && x in r
    ensures x in s
  {
    assert x in multiset(r);
  }

  /** calculate_profile. `sqrt` stands for math.sqrt (not modelled). */
  function Profile(candles: seq<Candle>, sqrt: real -> real): (p: VolumeProfile)
    ensures candles == [] ==> p == EmptyProfile
    ensures candles != [] ==> p.candleCount == |candles|
    ensures candles != [] ==> p.totalVolume == Sum(Volumes(candles))
    ensures candles != [] ==> p.avgVolume == Mean(Volumes(candles))
    ensures p.p25Volume <= p.p50Volume <= p.p75Volume <= p.p90Volume
    ensures p.medianVolume == p.p50Volume
    ensures candles != [] ==> p.p25Volume in Volumes(candles) && p.p50Volume in Volumes(candles)
    ensures candles != [] ==> p.p75Volume in Volumes(candles) && p.p90Volume in Volumes(candles)
    ensures candles != [] ==> p.period == Span(candles[0].timestamp, candles[|candles| - 1].timestamp)
    ensures candles != [] ==>
      (p.p25Volume, p.p50Volume, p.p75Volume, p.p90Volume) == Percentiles(SortBy(Volumes(candles), Identity))
  {
    if candles == [] then EmptyProfile
    else
      var volumes := Volumes(candles);
      var sorted := SortBy(volumes, Identity);
      var count := |volumes|;
      var total := Sum(volumes);
      var avg := total / count as real;
      var (p25, p50, p75, p90) := Percentiles(sorted);
      InPermutation(p25, sorted, volumes);
      InPermutation(p50, sorted, volumes);
      InPermutation(p75, sorted, volumes);
      InPermutation(p90, sorted, volumes);
      VolumeProfile(
        Span(candles[0].timestamp, candles[|candles| - 1].timestamp),
        avg, sorted[count / 2], p25, p50, p75, p90,
        sqrt(PopVariance(volumes)), total, count)
  }

  /** The smallest and the largest volume (the ends of the sorted list)
      bound every volume and the average, p25 from below and p90 from above. */
  lemma ProfileBracketsVolumes(candles: seq<Candle>, sqrt: real -> real)
    requires candles != []
    ensures var p := Profile(candles, sqrt);
      var sorted := SortBy(Volumes(candles), Identity);
      && sorted[0] <= p.p25Volume && p.p90Volume <= sorted[|sorted| - 1]
      && sorted[0] <= p.avgVolume <= sorted[|sorted| - 1]
      && forall i :: 0 <= i < |candles| ==> sorted[0] <= candles[i].volume <= sorted[|sorted| - 1]
  {
    var volumes := Volumes(candles);
    var sorted := SortBy(volumes, Identity);
    SortedEndsBound(sorted, volumes);
  }

  // ---------------------------------------------------------------------------
  // VolumeFilter
  // ---------------------------------------------------------------------------

  /** VolumeBacktestConfig. */
  datatype FilterConfig = FilterConfig(
    minVolumeRatio: real,
    maxVolumeRatio: real,
    highVolumeZscore: real,
    lowVolumeZscore: real,
    requireIncreasingVolume: bool,
    vwapDistancePct: real)

  const DefaultFilterConfig := FilterConfig(0.5, 3.0, 2.0, -2.0, false, 0.5)

  /** Which check produced the reason message (the numbers it formats are not modelled). */
  datatype Reason =
    | VolumeTooLow         // "Volume too low: ..."
    | VolumeSpike          // "Volume spike anomaly: ..."
    | HighVolumeZScore     // "High volume anomaly: z-score ..."
    | LowVolumeZScore      // "Low volume anomaly: z-score ..."
    | TrendNotIncreasing   // "Volume trend not increasing: ..."
    | FarFromVwap          // "Price too far from VWAP: ..."
    | VolumeConfirms       // "Volume confirms entry: ..."

  datatype EntryCheck = EntryCheck(allow: bool, reason: Reason, confidence: real)

  /** Distance of the price from a nonzero VWAP, in percent of the VWAP. */
  function VwapDistancePct(price: real, vwap: real): real
    requires vwap != 0.0
  {
    Abs((price - vwap) / vwap) * 100.0
  }

  /** Every threshold of the configuration is met. */
  predicate PassesAllChecks(cfg: FilterConfig, m: VolumeMetrics, price: real)
  {
    && cfg.minVolumeRatio <= m.volumeRatio <= cfg.maxVolumeRatio
    && cfg.lowVolumeZscore <= m.zScore <= cfg.highVolumeZscore
    && (cfg.requireIncreasingVolume ==> m.trend == Increasing)
    && (m.vwap > 0.0 ==> VwapDistancePct(price, m.vwap) <= cfg.vwapDistancePct)
  }

  /** should_allow_entry: the checks run in a fixed order and the first that
      fails decides the reason and the confidence. */
  function ShouldAllowEntry(cfg: FilterConfig, m: VolumeMetrics, price: real): (r: EntryCheck)
    ensures r.allow <==> PassesAllChecks(cfg, m, price)
    ensures r.allow ==> r.reason == VolumeConfirms && r.confidence == 1.0
    ensures m.volumeRatio < cfg.minVolumeRatio ==> r == EntryCheck(false, VolumeTooLow, 0.3)
    ensures cfg.minVolumeRatio <= m.volumeRatio && m.volumeRatio > cfg.maxVolumeRatio
      ==> r == EntryCheck(false, VolumeSpike, 0.2)
    ensures cfg.minVolumeRatio <= m.volumeRatio <= cfg.maxVolumeRatio && m.zScore > cfg.highVolumeZscore
      ==> r == EntryCheck(false, HighVolumeZScore, 0.4)
    ensures cfg.minVolumeRatio <= m.volumeRatio <= cfg.maxVolumeRatio
      && m.zScore <= cfg.highVolumeZscore && m.zScore < cfg.lowVolumeZscore
      ==> r == EntryCheck(false, LowVolumeZScore, 0.3)
    ensures cfg.minVolumeRatio <= m.volumeRatio <= cfg.maxVolumeRatio
      && cfg.lowVolumeZscore <= m.zScore <= cfg.highVolumeZscore
      && cfg.requireIncreasingVolume && m.trend != Increasing
      ==> r == EntryCheck(false, TrendNotIncreasing, 0.6)
    ensures cfg.minVolumeRatio <= m.volumeRatio <= cfg.maxVolumeRatio
      && cfg.lowVolumeZscore <= m.zScore <= cfg.highVolumeZscore
      && (cfg.requireIncreasingVolume ==> m.trend == Increasing)
      && m.vwap > 0.0 && VwapDistancePct(price, m.vwap) > cfg.vwapDistancePct
      ==> r == EntryCheck(false, FarFromVwap, 0.7)
    ensures !r.allow && r.reason == FarFromVwap ==> r.confidence == 0.7 && m.vwap > 0.0
    ensures !r.allow ==> r.reason != VolumeConfirms && r.confidence < 1.0
  {
    var confidence := 1.0;
    if m.volumeRatio < cfg.minVolumeRatio then
      EntryCheck(false, VolumeTooLow, confidence * 0.3)
    else if m.volumeRatio > cfg.maxVolumeRatio then
      EntryCheck(false, VolumeSpike, confidence * 0.2)
    else if m.zScore > cfg.highVolumeZscore then
      EntryCheck(false, HighVolumeZScore, confidence * 0.4)
    else if m.zScore < cfg.lowVolumeZscore then
      EntryCheck(false, LowVolumeZScore, confidence * 0.3)
    else if cfg.requireIncreasingVolume && m.trend != Increasing then
      EntryCheck(false, TrendNotIncreasing, confidence * 0.6)
    else if m.vwap > 0.0 && VwapDistancePct(price, m.vwap) > cfg.vwapDistancePct then
      EntryCheck(false, FarFromVwap, confidence * 0.7)
    else
      var boosted := if m.vwap > 0.0 then confidence * 1.2 else confidence;
      EntryCheck(true, VolumeConfirms, Min(boosted, 1.0))
  }

  datatype DecisionLabel = Allow | RejectLowVolume | RejectHighVolume | RejectNoTrend | Reject

  /** VolumeDecision without its wall-clock timestamp. */
  datatype VolumeDecision = VolumeDecision(
    coin: string,
    price: real,
    volume: real,
    metrics: VolumeMetrics,
    decision: DecisionLabel,
    reason: Reason,
    confidence: real)

  /** The label make_decision derives from the reason text: "too low" gives
      low volume, "spike anomaly" or "High volume anomaly" high volume,
      "trend not" no trend, anything else a plain reject. */
  function LabelFor(check: EntryCheck): (r: DecisionLabel)
    ensures r == Allow <==> check.allow
    ensures r == RejectLowVolume <==> !check.allow && check.reason == VolumeTooLow
    ensures r == RejectHighVolume <==> !check.allow && (check.reason == VolumeSpike || check.reason == HighVolumeZScore)
    ensures r == RejectNoTrend <==> !check.allow && check.reason == TrendNotIncreasing
  {
    if check.allow then Allow
    else match check.reason
      case VolumeTooLow => RejectLowVolume
      case VolumeSpike => RejectHighVolume
      case HighVolumeZScore => RejectHighVolume
      case TrendNotIncreasing => RejectNoTrend
      case _ => Reject
  }

  /** make_decision, with each label characterised by the metrics directly. */
  function MakeDecision(cfg: FilterConfig, candle: Candle, m: VolumeMetrics, coin: string): (d: VolumeDecision)
    ensures d.coin == coin && d.price == candle.close && d.volume == candle.volume && d.metrics == m
    ensures d.decision == Allow <==> PassesAllChecks(cfg, m, candle.close)
    ensures d.decision == Allow ==> d.confidence == 1.0
    ensures d.decision == RejectLowVolume <==> m.volumeRatio < cfg.minVolumeRatio
    ensures d.decision == RejectHighVolume <==>
      cfg.minVolumeRatio <= m.volumeRatio && (m.volumeRatio > cfg.maxVolumeRatio || m.zScore > cfg.highVolumeZscore)
    ensures d.decision == RejectNoTrend <==>
      && cfg.minVolumeRatio <= m.volumeRatio <= cfg.maxVolumeRatio
      && cfg.lowVolumeZscore <= m.zScore <= cfg.highVolumeZscore
      && cfg.requireIncreasingVolume && m.trend != Increasing
    ensures d.decision == Reject ==> d.reason == LowVolumeZScore || d.reason == FarFromVwap
    ensures d.reason == ShouldAllowEntry(cfg, m, candle.close).reason
    ensures d.confidence == ShouldAllowEntry(cfg, m, candle.close).confidence
  {
    var check := ShouldAllowEntry(cfg, m, candle.close);
    VolumeDecision(coin, candle.close, candle.volume, m, LabelFor(check), check.reason, check.confidence)
  }

  /** The dictionary add_volume_to_prediction returns. */
  datatype PredictionVolume = PredictionVolume(
    coin: string,
    price: real,
    volume: real,
    volumeSma: real,
    volumeEma: real,
    vwap: real,
    volumeRatio: real,
    zScore: real,
    trend: Trend,
    anomaly: bool,
    anomalyType: AnomalyType,
    volumeConfirms: bool)

  /** add_volume_to_prediction: copies the metrics and adds whether volume
      confirms (at least half the average and no anomaly). */
  function AddVolumeToPrediction(coin: string, currentPrice: real, m: VolumeMetrics): (r: PredictionVolume)
    ensures r.coin == coin && r.price == currentPrice && r.volume == m.volume
    ensures r.volumeSma == m.volumeSma && r.volumeEma == m.volumeEma && r.vwap == m.vwap
    ensures r.volumeRatio == m.volumeRatio && r.zScore == m.zScore && r.trend == m.trend
    ensures r.anomaly == m.anomaly && r.anomalyType == m.anomalyType
    ensures r.volumeConfirms <==> m.volumeRatio >= 0.5 && !m.anomaly
  {
    PredictionVolume(coin, currentPrice, m.volume, m.volumeSma, m.volumeEma, m.vwap,
                     m.volumeRatio, m.zScore, m.trend, m.anomaly, m.anomalyType,
                     m.volumeRatio >= 0.5 && !m.anomaly)
  }

  /** Metrics whose anomaly flag is set exactly when |z| > 2.5, as
      analyze_candle sets it (see CandleMetrics), and that the default filter
      allows are also reported as volume-confirming by
      add_volume_to_prediction: the default thresholds (ratio >= 0.5,
      |z| <= 2) are stricter than the confirmation test (ratio >= 0.5, no
      anomaly). */
  lemma DefaultAllowedConfirms(m: VolumeMetrics, coin: string, price: real)
    requires m.anomaly <==> m.zScore > 2.5 || m.zScore < -2.5
    requires ShouldAllowEntry(DefaultFilterConfig, m, price).allow
    ensures AddVolumeToPrediction(coin, price, m).volumeConfirms
  {
  }

  // ---------------------------------------------------------------------------
  // Candle request windows of VolumeDataFetcher.fetch_candles
  // ---------------------------------------------------------------------------

  /** Minutes per candle for a timeframe name; unknown names count as 1 hour. */
  function TimeframeMinutes(timeframe: string): (r: int)
    ensures r >= 60
    ensures timeframe != "4hour" && timeframe != "1day" ==> r == 60
    ensures timeframe == "4hour" ==> r == 4 * 60
    ensures timeframe == "1day" ==> r == 24 * 60
  {
    if timeframe == "1hour" then 60
    else if timeframe == "4hour" then 240
    else if timeframe == "1day" then 1440
    else 60
  }

  /** Seconds covered by one request of at most 1500 candles. */
  function ChunkSeconds(timeframe: string): (r: int)
    ensures r >= 1500 * 60 * 60
    ensures r <= 1500 * 24 * 60 * 60
  {
    1500 * TimeframeMinutes(timeframe) * 60
  }

  /** Every window is non-empty and at most one chunk long; each one but the
      last is exactly one chunk long and ends where the next one starts. */
  predicate Chunked(windows: seq<(int, int)>, chunk: int)
  {
    && (forall i :: 0 <= i < |windows| ==> windows[i].0 < windows[i].1 <= windows[i].0 + chunk)
    && (forall i :: 0 <= i < |windows| - 1 ==>
          windows[i].1 == windows[i + 1].0 && windows[i].1 - windows[i].0 == chunk)
  }

  lemma AppendWindow(windows: seq<(int, int)>, chunk: int, s: int, e: int)
    requires Chunked(windows, chunk) && s < e <= s + chunk
    requires windows != [] ==> windows[|windows| - 1].1 == s && s - windows[|windows| - 1].0 == chunk
    ensures Chunked(windows + [(s, e)], chunk)
  {
    var w := windows + [(s, e)];
    assert forall i :: 0 <= i < |windows| ==> w[i] == windows[i];
  }

  /** The [start, end) windows fetch_candles requests, in order: contiguous,
      from start to end, each full-sized except possibly the last. */
  method ChunkWindows(startTs: int, endTs: int, timeframe: string) returns (windows: seq<(int, int)>)
    ensures startTs >= endTs <==> windows == []
    ensures windows != [] ==> windows[0].0 == startTs && windows[|windows| - 1].1 == endTs
    ensures forall i :: 0 <= i < |windows| ==>
      windows[i].0 < windows[i].1 <= windows[i].0 + ChunkSeconds(timeframe)
    ensures forall i :: 0 <= i < |windows| - 1 ==>
      windows[i].1 == windows[i + 1].0 && windows[i].1 - windows[i].0 == ChunkSeconds(timeframe)
    ensures forall i :: 0 <= i < |windows| ==>
      windows[i].1 - windows[i].0 <= 1500 * (60 * TimeframeMinutes(timeframe))
  {
    var chunkSeconds := ChunkSeconds(timeframe);
    windows := [];
    var currentStart := startTs;
    while currentStart < endTs
      invariant windows == [] ==> currentStart == startTs
      invariant startTs >= endTs ==> windows == []
      invariant windows != [] ==> windows[0].0 == startTs && windows[|windows| - 1].1 == currentStart
      invariant windows != [] ==> currentStart <= endTs
      invariant windows != [] && currentStart < endTs ==>
        windows[|windows| - 1].1 - windows[|windows| - 1].0 == chunkSeconds
      invariant Chunked(windows, chunkSeconds)
      decreases endTs - currentStart
    {
      var chunkEnd := MinInt(currentStart + chunkSeconds, endTs);
      AppendWindow(windows, chunkSeconds, currentStart, chunkEnd);
      windows := windows + [(currentStart, chunkEnd)];
      currentStart := chunkEnd;
    }
  }
}
