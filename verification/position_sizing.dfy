/** ATR (average true range) position sizing: the true range of one period,
    the 14-period ATR over the rows of a symbol's recent trade exits, and the
    volatility-adjusted position size derived from it. Prices and amounts are
    Python floats idealised as reals. */
module PositionSizing {
  import opened Collections

  /** calculate_true_range: the greatest of high - low, |high - prevClose|
      and |low - prevClose|. */
  function TrueRange(high: real, low: real, prevClose: real): (r: real)
    ensures r >= high - low && r >= Abs(high - prevClose) && r >= Abs(low - prevClose)
    ensures r == high - low || r == Abs(high - prevClose) || r == Abs(low - prevClose)
    ensures r >= 0.0
  {
    Max(Max(high - low, Abs(high - prevClose)), Abs(low - prevClose))
  }

  // ---------------------------------------------------------------------------
  // ATR
  // ---------------------------------------------------------------------------

  /** One row of the trade-exit query: timestamp, close, high and low price. */
  datatype Row = Row(timestamp: int, close: real, high: real, low: real)

  function RowTime(r: Row): real { r.timestamp as real }

  /** `df.sort_values("timestamp")`: ascending by timestamp, a permutation of the rows. */
  function ByTimestamp(rows: seq<Row>): (df: seq<Row>)
    ensures SortedBy(df, RowTime) && multiset(df) == multiset(rows) && |df| == |rows|
  {
    SortBy(rows, RowTime)
  }

  /** The true ranges over consecutive rows: the i-th uses row i + 1's high and
      low and row i's close, so n rows give n - 1 true ranges. */
  function TrueRanges(df: seq<Row>): (trs: seq<real>)
    ensures |trs| == if df == [] then 0 else |df| - 1
    ensures forall k :: 0 <= k < |trs| ==> trs[k] == TrueRange(df[k + 1].high, df[k + 1].low, df[k].close)
    ensures forall k :: 0 <= k < |trs| ==> trs[k] >= 0.0
  {
    if df == [] then [] else seq(|df| - 1, k requires 0 <= k < |df| - 1 => TrueRangeAt(df, k))
  }

  /** The true range of row k + 1 against row k's close. */
  function TrueRangeAt(df: seq<Row>, k: nat): real
    requires k + 1 < |df|
  {
    TrueRange(df[k + 1].high, df[k + 1].low, df[k].close)
  }

  /** The ATR calculate_atr returns for the fetched rows: 0.0 with fewer than
      20 rows or fewer than 14 true ranges, otherwise the 14-period rolling
      mean at the last true range, that is the mean of the last 14. */
  function AtrOf(rows: seq<Row>): (atr: real)
    ensures |rows| < 20 ==> atr == 0.0
    ensures atr >= 0.0
  {
    if |rows| < 20 then 0.0
    else
      var trs := TrueRanges(ByTimestamp(rows));
      if |trs| < 14 then 0.0
      else
        var window := trs[|trs| - 14..];
        assert forall k :: 0 <= k < |window| ==> 0.0 <= window[k];
        SumNonNegative(window);
        Mean(window)
  }

  /** The ATR lies between any bounds on the last 14 true ranges. */
  lemma AtrWithinTrueRanges(rows: seq<Row>, lo: real, hi: real)
    requires |rows| >= 20
    requires var trs := TrueRanges(ByTimestamp(rows));
      forall k :: |trs| - 14 <= k < |trs| ==> lo <= trs[k] <= hi
    ensures lo <= AtrOf(rows) <= hi
  {
    var trs := TrueRanges(ByTimestamp(rows));
    var window := trs[|trs| - 14..];
    assert forall k :: 0 <= k < |window| ==> window[k] == trs[|trs| - 14 + k];
    MeanBounds(window, lo, hi);
  }

  /** The ATR computation of calculate_atr over the rows the query returned:
      sort by timestamp, build the true ranges in a loop, average the last 14.
      With 20 rows or more there are at least 19 true ranges, so the "fewer
      than 14 true ranges" fallback never fires. */
  method CalculateAtr(rows: seq<Row>) returns (atr: real)
    ensures atr == AtrOf(rows)
    ensures atr >= 0.0
    ensures |rows| >= 20 ==>
      var trs := TrueRanges(ByTimestamp(rows));
      |trs| == |rows| - 1 >= 19 && atr == Mean(trs[|trs| - 14..])
  {
    if |rows| < 20 {
      return 0.0;
    }
    var df := ByTimestamp(rows);
    var trueRanges: seq<real> := [];
    for i := 1 to |df|
      invariant |trueRanges| == i - 1
      invariant forall k :: 0 <= k < i - 1 ==> trueRanges[k] == TrueRangeAt(df, k)
    {
      var tr := TrueRange(df[i].high, df[i].low, df[i - 1].close);
      assert tr == TrueRangeAt(df, i - 1);
      trueRanges := trueRanges + [tr];
    }
    assert trueRanges == TrueRanges(df);
    atr := if |trueRanges| < 14 then 0.0 else Mean(trueRanges[|trueRanges| - 14..]);
  }

  // ---------------------------------------------------------------------------
  // Position size
  // ---------------------------------------------------------------------------

  /** The sizer's risk settings: default, minimum and maximum fraction of the account. */
  datatype SizerConfig = SizerConfig(defaultRiskPct: real, minRiskPct: real, maxRiskPct: real)

  const DefaultSizerConfig := SizerConfig(0.02, 0.01, 0.10)

  datatype VolatilityLevel = Low | Medium | High

  /** PositionSizingResult; the symbol is always the empty string. */
  datatype SizingResult = SizingResult(
    symbol: string,
    positionSizeUsd: real,
    positionSizePct: real,
    riskAmount: real,
    atr: real,
    volatilityLevel: VolatilityLevel)

  /** calculate_position_size either returns a result or raises
      ZeroDivisionError (a current price of 0). */
  datatype SizingOutcome = Sized(result: SizingResult) | ZeroDivisionError

  /** The tiered volatility factor, with its branches in the source's order.
      The fourth branch (above 8 percent) follows one that already takes every
      value above 5 percent, so the factor is never 0.5. */
  function VolatilityFactor(atrPct: real): (f: real)
    ensures f == 1.5 <==> atrPct < 1.0
    ensures f == 1.25 <==> 1.0 <= atrPct < 2.0
    ensures f == 0.75 <==> atrPct > 5.0
    ensures f == 1.0 <==> 2.0 <= atrPct <= 5.0
    ensures f != 0.5
  {
    if atrPct < 1.0 then 1.5
    else if atrPct < 2.0 then 1.25
    else if atrPct > 5.0 then 0.75
    else if atrPct > 8.0 then 0.5
    else 1.0
  }

  /** The volatility label: LOW below 1.5 percent, HIGH above 5 percent, MEDIUM otherwise. */
  function Level(atrPct: real): (l: VolatilityLevel)
    ensures l == Low <==> atrPct < 1.5
    ensures l == High <==> atrPct > 5.0
    ensures l == Medium <==> 1.5 <= atrPct <= 5.0
  {
    if atrPct < 1.5 then Low
    else if atrPct > 5.0 then High
    else Medium
  }

  /** `max(min_risk_pct, min(raw, max_risk_pct))`: never below the minimum,
      never above the maximum when the bounds are ordered, and a raw value
      already within them is kept. */
  function ClampRisk(cfg: SizerConfig, raw: real): (pct: real)
    ensures pct >= cfg.minRiskPct
    ensures cfg.minRiskPct <= cfg.maxRiskPct ==> pct <= cfg.maxRiskPct
    ensures cfg.minRiskPct <= raw <= cfg.maxRiskPct ==> pct == raw
    ensures pct == raw || pct == cfg.minRiskPct || pct == cfg.maxRiskPct
  {
    Max(cfg.minRiskPct, Min(raw, cfg.maxRiskPct))
  }

  /** The ATR actually used for sizing: an ATR of exactly 0 is replaced by 2% of the price. */
  function EffectiveAtr(atr: real, currentPrice: real): (a: real)
    ensures atr != 0.0 ==> a == atr
    ensures atr == 0.0 ==> a == currentPrice * 0.02
  {
    if atr == 0.0 then currentPrice * 0.02 else atr
  }

  function RiskToUse(cfg: SizerConfig, riskPct: Option<real>): (r: real)
    ensures riskPct.None? ==> r == cfg.defaultRiskPct
    ensures riskPct.Some? ==> r == riskPct.value
  {
    if riskPct.Some? then riskPct.value else cfg.defaultRiskPct
  }

  /** calculate_position_size with Python float arguments, as its signature
      declares (a numpy ATR and a zero price are handled in
      GetSizingRecommendation). */
  function CalculatePositionSize(cfg: SizerConfig, accountValue: real, atr: real, currentPrice: real,
                                 riskPct: Option<real>): (out: SizingOutcome)
    ensures out.ZeroDivisionError? <==> currentPrice == 0.0
    ensures out.Sized? ==>
      var a := EffectiveAtr(atr, currentPrice);
      var atrPct := (a / currentPrice) * 100.0;
      var risk := RiskToUse(cfg, riskPct);
      var pct := ClampRisk(cfg, risk * VolatilityFactor(atrPct));
      && out.result.symbol == ""
      && out.result.atr == a
      && out.result.positionSizePct == pct * 100.0
      && out.result.positionSizeUsd == accountValue * pct
      && out.result.riskAmount == out.result.positionSizeUsd * risk
      && out.result.volatilityLevel == Level(atrPct)
  {
    var a := EffectiveAtr(atr, currentPrice);
    var risk := RiskToUse(cfg, riskPct);
    if currentPrice == 0.0 then ZeroDivisionError
    else
      var atrPct := (a / currentPrice) * 100.0;
      var pct := ClampRisk(cfg, risk * VolatilityFactor(atrPct));
      var usd := accountValue * pct;
      Sized(SizingResult("", usd, pct * 100.0, usd * risk, a, Level(atrPct)))
  }

  /** With ordered risk bounds and a nonnegative account, the position is
      between min_risk_pct and max_risk_pct of the account, its percentage
      between 100 times each bound. */
  lemma PositionWithinRiskBounds(cfg: SizerConfig, accountValue: real, atr: real, currentPrice: real,
                                 riskPct: Option<real>)
    requires cfg.minRiskPct <= cfg.maxRiskPct && accountValue >= 0.0 && currentPrice != 0.0
    ensures var out := CalculatePositionSize(cfg, accountValue, atr, currentPrice, riskPct);
      && cfg.minRiskPct * 100.0 <= out.result.positionSizePct <= cfg.maxRiskPct * 100.0
      && accountValue * cfg.minRiskPct <= out.result.positionSizeUsd <= accountValue * cfg.maxRiskPct
  {
    var out := CalculatePositionSize(cfg, accountValue, atr, currentPrice, riskPct);
    var pct := out.result.positionSizePct / 100.0;
    assert out.result.positionSizeUsd == accountValue * pct;
    ScaleMonotone(cfg.minRiskPct, pct, accountValue);
    ScaleMonotone(pct, cfg.maxRiskPct, accountValue);
  }

  /** An ATR of exactly 0 is sized as 2% of the price: its percentage is 2,
      so the factor is 1.0, the label MEDIUM, and the result reports the
      substituted ATR. */
  lemma ZeroAtrFallback(cfg: SizerConfig, accountValue: real, currentPrice: real, riskPct: Option<real>)
    requires currentPrice != 0.0
    ensures var out := CalculatePositionSize(cfg, accountValue, 0.0, currentPrice, riskPct);
      && out.Sized?
      && out.result.atr == currentPrice * 0.02
      && out.result.volatilityLevel == Medium
      && out.result.positionSizePct == ClampRisk(cfg, RiskToUse(cfg, riskPct)) * 100.0
  {
    var a := currentPrice * 0.02;
    assert (a / currentPrice) * 100.0 == 2.0;
    assert VolatilityFactor(2.0) == 1.0;
  }

  // ---------------------------------------------------------------------------
  // Recommendation
  // ---------------------------------------------------------------------------

  /** A float percentage as the recommendation reports it: a value, or +inf,
      what numpy gives for a positive float64 divided by zero. */
  datatype Percent = Finite(value: real) | PosInfinity

  /** The dictionary get_sizing_recommendation returns. */
  datatype Recommendation = Recommendation(
    symbol: string,
    atr: real,
    atrPct: Percent,
    positionSizeUsd: real,
    positionSizePct: real,
    riskAmount: real,
    volatilityLevel: VolatilityLevel,
    accountValue: real)

  datatype RecommendationOutcome = Recommended(rec: Recommendation) | RecommendationZeroDivision

  /** The recommendation for a current price of 0 and a nonzero ATR. That ATR
      is the numpy float64 taken from the rolling mean, so both divisions by
      the price give +inf instead of raising. +inf is above every threshold,
      so the position is sized like any ATR percentage above 5 (8 stands for
      them below): factor 0.75, level HIGH. */
  function InfinitePctRecommendation(cfg: SizerConfig, symbol: string, atr: real, accountValue: real,
                                     riskPct: Option<real>): (rec: Recommendation)
    ensures var risk := RiskToUse(cfg, riskPct);
      var pct := ClampRisk(cfg, risk * VolatilityFactor(8.0));
      && rec.symbol == symbol && rec.atr == atr && rec.accountValue == accountValue
      && rec.atrPct == PosInfinity
      && rec.volatilityLevel == Level(8.0)
      && rec.positionSizePct == pct * 100.0
      && rec.positionSizeUsd == accountValue * pct
      && rec.riskAmount == rec.positionSizeUsd * risk
  {
    var risk := RiskToUse(cfg, riskPct);
    var pct := ClampRisk(cfg, risk * 0.75);
    var usd := accountValue * pct;
    Recommendation(symbol, atr, PosInfinity, usd, pct * 100.0, usd * risk, High, accountValue)
  }

  /** get_sizing_recommendation over the rows calculate_atr would fetch: it
      reports the ATR as calculated (possibly 0) and an ATR percentage of 0
      when that ATR is not positive, while the position fields come from
      sizing with that same ATR, whose 0 becomes the 2% fallback.
      A current price of 0 raises ZeroDivisionError only with a zero ATR, a
      Python float (0 / 0); a nonzero ATR gives InfinitePctRecommendation. */
  function GetSizingRecommendation(cfg: SizerConfig, symbol: string, rows: seq<Row>, accountValue: real,
                                   currentPrice: real, riskPct: Option<real>): (out: RecommendationOutcome)
    ensures out.RecommendationZeroDivision? <==> currentPrice == 0.0 && AtrOf(rows) == 0.0
    ensures out.Recommended? ==>
      && out.rec.symbol == symbol && out.rec.accountValue == accountValue
      && out.rec.atr == AtrOf(rows)
      && (AtrOf(rows) <= 0.0 ==> out.rec.atrPct == Finite(0.0))
    ensures currentPrice != 0.0 ==>
      var sized := CalculatePositionSize(cfg, accountValue, AtrOf(rows), currentPrice, riskPct).result;
      && out.Recommended?
      && (AtrOf(rows) > 0.0 ==> out.rec.atrPct == Finite(AtrOf(rows) / currentPrice * 100.0))
      && out.rec.positionSizeUsd == sized.positionSizeUsd
      && out.rec.positionSizePct == sized.positionSizePct
      && out.rec.riskAmount == sized.riskAmount
      && out.rec.volatilityLevel == sized.volatilityLevel
    ensures currentPrice == 0.0 && AtrOf(rows) != 0.0 ==>
      out == Recommended(InfinitePctRecommendation(cfg, symbol, AtrOf(rows), accountValue, riskPct))
  {
    var atr := AtrOf(rows);
    if currentPrice == 0.0 && atr != 0.0 then
      Recommended(InfinitePctRecommendation(cfg, symbol, atr, accountValue, riskPct))
    else
      match CalculatePositionSize(cfg, accountValue, atr, currentPrice, riskPct)
      case ZeroDivisionError => RecommendationZeroDivision
      case Sized(result) =>
        Recommended(Recommendation(
          symbol, atr,
          if atr > 0.0 then Finite(atr / currentPrice * 100.0) else Finite(0.0),
          result.positionSizeUsd, result.positionSizePct, result.riskAmount,
          result.volatilityLevel, accountValue))
  }

  /** With fewer than 20 rows the recommendation reports an ATR of 0 and an
      ATR percentage of 0, yet labels the volatility MEDIUM: the label comes
      from the 2% fallback the report does not show. */
  lemma RecommendationHidesFallback(cfg: SizerConfig, symbol: string, rows: seq<Row>, accountValue: real,
                                    currentPrice: real, riskPct: Option<real>)
    requires |rows| < 20 && currentPrice != 0.0
    ensures var out := GetSizingRecommendation(cfg, symbol, rows, accountValue, currentPrice, riskPct);
      && out.Recommended?
      && out.rec.atr == 0.0 && out.rec.atrPct == Finite(0.0)
      && out.rec.volatilityLevel == Medium
  {
    ZeroAtrFallback(cfg, accountValue, currentPrice, riskPct);
  }
}
