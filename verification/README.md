# PowerTrader volume analytics, ATR position sizing and structured logging, in Dafny

This project models three self-contained parts of the PowerTrader trading hub and proves properties of each.

- **Volume analytics and the volume entry filter** (`volume.dfy`, module `Volume`):
  - The `VolumeAnalyzer` statistics: SMA, EMA, VWAP, z-score and trend label.
  - `analyze_candle`, which appends to a bounded volume history and a growing price/volume history, then classifies anomalies.
  - `calculate_profile`, with its sorted-index percentiles.
  - `VolumeFilter`: its cascade of threshold checks (`should_allow_entry`) and the decision label (`make_decision`).
  - `add_volume_to_prediction`.
  - The request windows that `fetch_candles` walks through.
- **ATR position sizing** (`position_sizing.dfy`, module `PositionSizing`):
  - The true range of one period.
  - The 14-period ATR over the trade-exit rows of a symbol.
  - `calculate_position_size`, with its tiered volatility factor, its clamp to `[min_risk_pct, max_risk_pct]` and its LOW/MEDIUM/HIGH label.
  - `get_sizing_recommendation`.
- **Structured logging** (`logging.dfy`, module `StructuredLogging`, and `log_viewer.dfy`, module `LogViewer`):
  - The per-name logger registry (`__new__`/`__init__`).
  - The handler list and its critical-notification handler.
  - `CriticalLogHandler.emit`.
  - The `search_logs` filter with its cap of 100 results.
  - The backup selection of `cleanup_old_logs`.
  - The dashboard's `get_log_summary` and `get_log_entries`.

`collections.dfy` (module `Collections`) holds the shared sequence vocabulary:
- sums and means over reals;
- Python's `s[k:]` and `s[:k]` for any integer `k`, including the `s[:-0]` case;
- the stable `sorted(..., key=...)`.

Python floats are modelled as exact reals. Imperative code in the source is modelled imperatively:
- `VolumeAnalyzer`, `StructuredLogger` and the registry are classes whose methods update their fields.
- The loops of `calculate_atr`, `fetch_candles`, `search_logs`, `cleanup_old_logs` and `get_log_summary` are methods with loop invariants.
- The loops of `calculate_atr`, `search_logs` and `get_log_summary` are each proved equal to a specification function, and their properties are proved about that function. The deletion loop of `cleanup_old_logs` is stated against the selection function `FilesToDelete`.
- The window loop of `fetch_candles` has no such function: its postcondition states the windows' properties directly.

Two things the model shows:
- **The 0.5 volatility factor is unreachable.** In `calculate_position_size` the `atr_pct > 8.0` branch comes after `atr_pct > 5.0`, so it can never be taken.
- **The "fewer than 14 true ranges" fallback never fires.** `calculate_atr` already requires 20 rows, which give 19 true ranges.

Where the code behaves unexpectedly, the model follows the code:
- `get_sizing_recommendation` reports the raw ATR (possibly 0). Sizing itself uses 2% of the price when the ATR is 0.
- A current price of 0 raises ZeroDivisionError in `get_sizing_recommendation` only when the ATR is 0. A nonzero ATR is a numpy float64, and dividing it by 0 gives +inf. The recommendation is then sized like an ATR percentage above 5 (HIGH, factor 0.75).
- `cleanup_old_logs` with `backup_log_count == 0` deletes nothing, because `[:-0]` is an empty slice.
- A line of the logger's own JSON output carries a `"line"` key. `LogEntry(**data)` therefore raises `TypeError`, which ends the search with nothing collected. So a search over a file written by `StructuredFormatter` returns no entries.

## Model

| member | source | states |
|---|---|---|
| Volume.Sma | pt_volume.py:145-149 | 0.0 for no values; otherwise the mean of the last `min(period, len)` values |
| Volume.SmaWithinRange | pt_volume.py:145-149 | the SMA of non-empty values lies within any bounds of the values |
| Volume.Ema | pt_volume.py:151-158 | with no previous EMA the result is the current value; otherwise it moves from the previous EMA towards the current value by the multiplier 2/(period+1) of the gap, (r − prev)·(period+1) = 2·(current − prev); a previous EMA equal to the current value is a fixed point |
| Volume.EmaBetween | pt_volume.py:151-158 | for period ≥ 1 the EMA lies between the current value and the previous EMA (a convex combination) |
| Volume.Vwap | pt_volume.py:160-171 | 0.0 for empty or mismatched inputs or a total volume ≤ 0; otherwise VWAP times the total volume equals Σ price·volume |
| Volume.VwapWithinPriceRange | pt_volume.py:160-171 | with nonnegative volumes and a positive total, the VWAP lies between any bounds on the prices |
| Volume.ZScore | pt_volume.py:173-177 | 0.0 for a zero deviation; otherwise z·std equals value − mean |
| Volume.ZScoreThreshold | pt_volume.py:173-177 | for std > 0: z > k iff value − mean > k·std, and z < −k iff value − mean < −k·std |
| Volume.HalfAverages | pt_volume.py:187-191 | the last `min_periods` volumes split at `min_periods // 2` (at least one value on each side); each average times its half's length equals that half's sum |
| Volume.DetectTrend | pt_volume.py:179-203 | fewer than `min_periods` volumes give "stable" |
| Volume.ChangePct | pt_volume.py:193-197 | 0 when the first half's average is ≤ 0; otherwise change·first = (second − first)·100 |
| Volume.ChangeBeyondTenPercent | pt_volume.py:193-203 | the half-over-half change exceeds +10% iff the first half is positive and the second exceeds 1.1 times it, and falls below −10% iff the first half is positive and the second is below 0.9 times it |
| Volume.TrendByRatio | pt_volume.py:179-203 | "increasing" iff first-half average > 0 and second half > 1.1×; "decreasing" iff first-half average > 0 and second half < 0.9×; a first half ≤ 0 gives "stable" |
| Volume.ClassifyAnomaly | pt_volume.py:243-251 | anomaly iff z > 2.5 or z < −2.5; "high_volume" iff z > 2.5; "low_volume" iff z < −2.5 |
| Volume.VwapWindow | pt_volume.py:220-223 | the VWAP window holds min(50, history length) pairs, namely the newest ones |
| Volume.VolumeRatio | pt_volume.py:226-227 | 1.0 when the SMA is ≤ 0; otherwise ratio·SMA equals the volume |
| Volume.CandleMetrics | pt_volume.py:205-264 | every metric of one candle: SMA over the history, EMA, VWAP over the window, ratio, z-score 0 below 10 volumes and otherwise from mean and deviation, trend with min_periods 5, and anomaly and type exactly per the ±2.5 thresholds |
| Volume.AnomalyWithoutRoots | pt_volume.py:229-251 | with a square root of the variance, a candle is anomalous iff the variance is positive and (volume − mean)² > 6.25·variance |
| Volume.CandleVwapWithinCloses | pt_volume.py:220-224 | the candle's VWAP lies between any bounds on the closes in the history when volumes are nonnegative with a positive window total |
| Volume.DequeAppend | pt_volume.py:211 | appending to a deque with maxlen keeps min(len+1, maxlen) newest items, the last being the new one |
| Volume.VolumeAnalyzer.constructor | pt_volume.py:139-143 | stores the periods; both histories start empty |
| Volume.VolumeAnalyzer.AnalyzeCandle | pt_volume.py:205-264 | the volume history becomes the deque append of the volume (never longer than 2·max(periods), last element the new volume); the price/volume history grows by exactly the (close, volume) pair; the result is the candle's metrics over the new histories |
| Volume.PercentileIndices | pt_volume.py:298-301 | the four percentile indices are ordered and in range; p50 is `count // 2`; p25 and p75 are floor(count/4) and floor(3·count/4) when count ≥ 4, else the first and the last index; p90 is floor(9·count/10) when count ≥ 10, else the last index |
| Volume.Percentiles | pt_volume.py:289-301 | p25 ≤ p50 ≤ p75 ≤ p90, each an element of the sorted volumes within its ends, p50 the median element, and each reading the element at its PercentileIndices index |
| Volume.Profile | pt_volume.py:266-316 | an all-zero "unknown" profile for no candles; otherwise count = number of candles, total = sum, average = mean, median = p50, ordered percentiles drawn from the volumes, period from the first to the last candle |
| Volume.ProfileBracketsVolumes | pt_volume.py:284-301 | the smallest and largest volume bracket every candle's volume, the average and all percentiles |
| Volume.ShouldAllowEntry | pt_volume.py:328-380 | allowed iff every configured threshold holds, then with confidence 1.0; the first failing check in the order ratio low, ratio high, z high, z low, trend, VWAP (positive VWAP only) decides the reason and confidence 0.3/0.2/0.4/0.3/0.6/0.7 |
| Volume.LabelFor | pt_volume.py:388-397 | ALLOW iff allowed; REJECT_LOW_VOLUME iff the reason is the low ratio; REJECT_HIGH_VOLUME iff a ratio spike or a high z-score; REJECT_NO_TREND iff the trend check; REJECT for the rest |
| Volume.MakeDecision | pt_volume.py:382-408 | the label is ALLOW iff all checks pass (confidence 1.0), REJECT_LOW_VOLUME iff the ratio is too low, REJECT_HIGH_VOLUME iff the ratio or the z-score is too high, REJECT_NO_TREND iff only the trend check fails; any other rejection is REJECT; the reason and the confidence are those of should_allow_entry |
| Volume.AddVolumeToPrediction | pt_volume.py:586-613 | copies every metric; `volume_confirms` iff ratio ≥ 0.5 and no anomaly |
| Volume.DefaultAllowedConfirms | pt_volume.py:586-613 | for metrics whose anomaly flag means an absolute z-score above 2.5, as analyze_candle sets it, an entry the default filter allows is always reported as volume-confirmed |
| Volume.TimeframeMinutes | pt_volume.py:689-695 | at least 60 minutes per candle; 240 for "4hour", 1440 for "1day", and 60 for any other name |
| Volume.ChunkSeconds | pt_volume.py:690-696 | one request covers at least 1500 hours and at most 1500 days |
| Volume.ChunkWindows | pt_volume.py:695-725 | no window iff start ≥ end; otherwise contiguous windows from start to end, each non-empty and at most one chunk long, all but the last exactly one chunk, and none longer than 1500 candles of the timeframe |
| PositionSizing.TrueRange | pt_position_sizing.py:89-109 | the true range is at least each of high − low, \|high − prev close\|, \|low − prev close\|, equals one of them, and is ≥ 0 |
| PositionSizing.ByTimestamp | pt_position_sizing.py:146 | the rows sorted ascending by timestamp, a permutation of the rows |
| PositionSizing.TrueRanges | pt_position_sizing.py:148-156 | n rows give n − 1 true ranges, the k-th from row k+1's high and low and row k's close, all ≥ 0 |
| PositionSizing.AtrOf | pt_position_sizing.py:140-165 | fewer than 20 rows give 0.0; the ATR is never negative |
| PositionSizing.AtrWithinTrueRanges | pt_position_sizing.py:158-165 | with 20 rows or more the ATR lies within any bounds on the last 14 true ranges |
| PositionSizing.CalculateAtr | pt_position_sizing.py:140-165 | the loop's result is the ATR of the rows; with 20 rows or more there are at least 19 true ranges and the ATR is the mean of the last 14 |
| PositionSizing.VolatilityFactor | pt_position_sizing.py:256-265 | 1.5 iff atr_pct < 1, 1.25 iff 1 ≤ atr_pct < 2, 0.75 iff atr_pct > 5, 1.0 iff 2 ≤ atr_pct ≤ 5, and never 0.5 |
| PositionSizing.Level | pt_position_sizing.py:273-277 | LOW iff atr_pct < 1.5, HIGH iff atr_pct > 5, MEDIUM otherwise |
| PositionSizing.ClampRisk | pt_position_sizing.py:267-268 | the clamped fraction is ≥ min, ≤ max when min ≤ max, unchanged when already in range, and one of raw, min and max |
| PositionSizing.EffectiveAtr | pt_position_sizing.py:250-251 | an ATR of exactly 0 becomes 2% of the price; any other ATR is kept |
| PositionSizing.RiskToUse | pt_position_sizing.py:253 | the given risk fraction, or the default when none is given |
| PositionSizing.CalculatePositionSize | pt_position_sizing.py:231-286 | with Python float arguments: ZeroDivisionError iff the price is 0; otherwise USD size = account·clamped fraction, risk amount = USD size·risk used, percentage = 100·fraction, the reported ATR is the one used, the level from atr_pct, and the symbol empty |
| PositionSizing.PositionWithinRiskBounds | pt_position_sizing.py:267-270 | with min ≤ max the size lies within [100·min, 100·max] percent and within [account·min, account·max] USD |
| PositionSizing.ZeroAtrFallback | pt_position_sizing.py:250-277 | a zero ATR is reported as 2% of the price and gives level MEDIUM and factor 1.0 |
| PositionSizing.InfinitePctRecommendation | pt_position_sizing.py:307-325 | the recommendation for a zero price and a nonzero ATR: atr_pct is +inf, the level is HIGH, and the position is the base risk times the factor for any ATR percentage above 5 (0.75), clamped to the risk bounds, with the risk amount that position times the risk |
| PositionSizing.GetSizingRecommendation | pt_position_sizing.py:288-325 | ZeroDivisionError iff the price and the ATR are both 0; reports the raw ATR and atr_pct 0 when the ATR is ≤ 0; for a nonzero price, atr_pct = ATR/price·100 and the sizing fields of calculate_position_size over that ATR; for a zero price and a nonzero (numpy) ATR, atr_pct +inf and sizing as for a percentage above 5 |
| PositionSizing.RecommendationHidesFallback | pt_position_sizing.py:307-325 | with fewer than 20 rows the recommendation reports ATR 0 and atr_pct 0 while its level (MEDIUM) comes from the 2% fallback |
| StructuredLogging.LevelOrder | pt_logging.py:133-135 | NOTSET < DEBUG < INFO < WARNING < ERROR < CRITICAL, WARN and FATAL are aliases, and a name the logging module does not define gives INFO |
| StructuredLogging.LevelNumber | pt_logging.py:133-135 | the numeric level of a name; "CRITICAL" is 50 and any value is one of the standard levels |
| StructuredLogging.SetupHandlers | pt_logging.py:141-160 | a file handler (first, with max size in bytes and backup count) iff JSON output is on, a console handler (last) iff console output is on, exactly one handler per enabled output, and no critical handler |
| StructuredLogging.CriticalCountConcat | pt_logging.py:183-203 | the number of critical handlers of a concatenation is the sum of both |
| StructuredLogging.FirstCritical | pt_logging.py:198-203 | the index of the first critical handler, none iff there is none |
| StructuredLogging.RemoveFirstCritical | pt_logging.py:198-203 | the list unchanged when there is no critical handler; otherwise one shorter, with the handlers before the first critical one kept and the rest shifted down by one |
| StructuredLogging.RemoveFirstCriticalCount | pt_logging.py:198-203 | removing the first critical handler lowers the critical count and the length by one when there is one, and changes nothing otherwise |
| StructuredLogging.Emit | pt_logging.py:107-115 | the callback is invoked iff the record's level ≥ CRITICAL and a callback is set, with the record's level, logger name and message |
| StructuredLogging.ConfigOrDefault | pt_logging.py:132 | the given config, or the default LogConfig |
| StructuredLogging.StructuredLogger.constructor | pt_logging.py:130-139 | name and config are stored, the level is set from the upper-cased level name, and the handlers are set up |
| StructuredLogging.StructuredLogger.Reinit | pt_logging.py:130-139 | re-running `__init__` replaces name, config, level and handlers, leaving no critical handler |
| StructuredLogging.StructuredLogger.RemoveCriticalHandler | pt_logging.py:198-203 | the handler list loses exactly its first critical handler; nothing else changes |
| StructuredLogging.StructuredLogger.EnableCriticalNotifications | pt_logging.py:183-192 | removes the first critical handler and appends one with the given callback or the default; with at most one before, exactly one after |
| StructuredLogging.StructuredLogger.DisableCriticalNotifications | pt_logging.py:194-196 | removes the first critical handler; with at most one before, none after |
| StructuredLogging.FirstCriticalAt | pt_logging.py:198-203 | the first critical handler is at i when it is at i and at no earlier index |
| StructuredLogging.LoggerRegistry.constructor | pt_logging.py:121 | the registry starts empty |
| StructuredLogging.LoggerRegistry.GetOrCreate | pt_logging.py:124-139 | an existing name returns the same instance, a new name a fresh one registered once; either way config, level and handlers are re-initialised |
| StructuredLogging.LoggerRegistry.AllLoggers | pt_logging.py:345-348 | lists exactly the registered names, each once |
| StructuredLogging.SearchStep | pt_logging.py:323-341 | a line is kept iff it passes the filter and fits LogEntry; an undecodable line is skipped; the scan ends exactly when `.get` meets a non-object under a filter, `LogEntry(**data)` meets a non-object containing the query, `.lower()` meets a non-string module under a module filter, or a passing object does not fit LogEntry |
| StructuredLogging.Matches | pt_logging.py:327-335 | the filter of search_logs: only a JSON object can match; under a level filter its level is the upper-cased filter; under a module filter its module is a string (an absent module, read as "", never contains a non-empty filter); SearchStep keeps exactly the matching lines that fit LogEntry |
| StructuredLogging.EmptyQueryMatches | pt_logging.py:327-335 | with the empty query a line passes the filter iff it is an object with the requested level (upper-cased) and a module containing the module filter, ignoring case |
| StructuredLogging.SearchRespectsFilters | pt_logging.py:327-337 | on lines whose entry was built from their own fields, every search result has the requested level and a module containing the module filter |
| StructuredLogging.KeptEntries | pt_logging.py:321-341 | no more kept entries than lines |
| StructuredLogging.FirstAbort | pt_logging.py:321-341 | the first line whose processing raises, or the number of lines when none does |
| StructuredLogging.KeptIndices | pt_logging.py:321-341 | the kept entries come one per kept line, in file order (increasing line indices), and every kept line contributes |
| StructuredLogging.Collect | pt_logging.py:321-341 | the scan ends early iff some line raises; it collects exactly the kept entries of the lines before the first such line, in file order |
| StructuredLogging.CollectedFromKeptLines | pt_logging.py:321-341 | every collected entry is the entry of a line the filter keeps |
| StructuredLogging.CollectAfterAbort | pt_logging.py:321-341 | once the scan has ended, later lines change nothing |
| StructuredLogging.Search | pt_logging.py:311-343 | no file gives no entries; otherwise the last min(100, n) of the n collected entries, in file order |
| StructuredLogging.SearchLogs | pt_logging.py:311-343 | the loop computes the search |
| StructuredLogging.SearchOfFormatterLog | pt_logging.py:50-66 | a log made only of the formatter's own lines (each with a "line" key) yields no search results |
| StructuredLogging.CollectKeepsNothing | pt_logging.py:321-341 | the scan keeps nothing from lines that all carry a key outside LogEntry's fields |
| StructuredLogging.FilesToDelete | pt_logging.py:358-363 | the selection is drawn from the backups, no larger than them |
| StructuredLogging.FilesToDeleteSelection | pt_logging.py:358-366 | deleted files are a prefix of the backups sorted oldest first: none for count 0, all but the newest `count` for count > 0, the oldest `-count` for count < 0, never newer than a kept one |
| StructuredLogging.CleanupOldLogs | pt_logging.py:350-373 | 0 when the log is missing; otherwise the number of files selected, or 0 after an unlink failure with exactly the files before it removed |
| LogViewer.NewestFirst | pt_logging.py:390 | `sort(key=timestamp, reverse=True)`: a permutation with non-increasing timestamps |
| LogViewer.ProjectPermutation | pt_logging.py:390-405 | permuting the entries does not change how often each level or module occurs |
| LogViewer.TallySpec | pt_logging.py:400-405 | the counters have distinct keys, sum to the number of keys, and count each key exactly as often as it occurs |
| LogViewer.SummaryOf | pt_logging.py:390-413 | total_entries is the number of entries, and each recent list holds at most ten |
| LogViewer.GetLogSummary | pt_logging.py:379-415 | the loop computes the summary specification |
| LogViewer.SummaryCounts | pt_logging.py:392-405 | total_entries is the number of entries; by_level and by_module each sum to it and count every level and module exactly |
| LogViewer.OfLevelNewestFirst | pt_logging.py:407-413 | the entries of one level taken from a newest-first list are newest first |
| LogViewer.OfLevelCount | pt_logging.py:407-413 | the number of entries of a level is its number of occurrences |
| LogViewer.OfLevelMultiplicity | pt_logging.py:407-413 | every copy of an entry of the level is kept by the filter |
| LogViewer.PrefixIsNewest | pt_logging.py:407-413 | a prefix of a newest-first list holding every copy of a level's entries keeps the newest of them |
| LogViewer.RecentIsNewest | pt_logging.py:407-413 | the first ten of a level in newest-first order are the newest of that level |
| LogViewer.RecentOfLevel | pt_logging.py:407-413 | the first ten of a level are at most ten entries of that level, from the gathered ones, newest first, as many as exist up to ten, and the newest of that level: an entry left out is no newer than any entry kept |
| LogViewer.SummaryRecent | pt_logging.py:390-413 | recent_critical and recent_errors hold min(10, number of such entries) entries, only of their level, newest first, and the newest of their level |
| LogViewer.Contribution | pt_logging.py:424-431 | with a level or module filter, the first `count` results of an empty-query search (at most 100); otherwise the logger's recent entries |
| LogViewer.Gathered | pt_logging.py:422-431 | nothing for no loggers, at most 100 per logger when filtered; GatheredContains and GatheredMember state that it holds every contribution's entries and nothing else |
| LogViewer.GatheredMember | pt_logging.py:423-434 | every gathered entry comes from some logger's contribution |
| LogViewer.GatheredContains | pt_logging.py:422-431 | every logger's contribution is in the gathered list, each copy of each entry included |
| LogViewer.GetLogEntries | pt_logging.py:417-438 | the newest `count` gathered entries (`min(count, total)` of them for count ≥ 0), newest first, drawn from the gathered entries |
| LogViewer.FilteredEntryOrigin | pt_logging.py:427-431 | with a level or module filter, every entry shown was read from a line of some logger's file that passes the filter; when each line's entry was built from its fields, the entry has the requested level and module |

## Left out

- SQLite persistence is not modelled: `VolumeDecisionLogger`, the `PositionSizer` connection and the trade-exit query. The rows the query returns are an input sequence, and its `LIMIT 1000` and date cutoff are not modelled.
- Network fetching in `fetch_candles` is left out: the KuCoin `get_kline` requests, the parsing of candle rows, the final sort by timestamp, and the handler that prints a failing chunk's error and moves on to the next window. Only its window arithmetic is modelled.
- The command-line entry points, argparse and printing are left out.
- `get_market_volatility` is left out: it is pandas rolling/`pct_change` work.
- `math.sqrt` is a function parameter `sqrt`. The standard deviation is whatever that function returns. `AnomalyWithoutRoots` assumes only that it returns a nonnegative root.
- Float rounding is not modelled: all arithmetic is exact over reals. One consequence is percentile indices. `int(count*0.25)`, `int(count*0.75)` and `int(count*0.5)` equal the floor divisions used in the model. `int(count*0.9)` equals `(9*count)/10` because the double nearest 0.9 lies slightly above 0.9.
- `pd.isna` on the rolling mean is not modelled. Over real inputs the last rolling value of 14 or more values is never NaN.
- `df.sort_values` in `calculate_atr` is pandas' default quicksort, which is not stable. The model sorts stably, which is one of its possible orders. Rows with equal timestamps may be ordered differently in the source.
- Log entry timestamps are modelled as integers ordered like the ISO strings the source compares. The same holds for the `timestamp` of the trade-exit rows (`Row.timestamp`), which SQLite stores as TEXT and pandas sorts as strings. Backup mtimes are reals.
- Case folding (`lower`/`upper`) is ASCII only.
- The `in` test on `json.dumps(data)` works on the line's serialised text, which is an input of each line (`dumped`). JSON decoding and encoding are not modelled.
- Which keys a line has, and whether its level and module fields are strings, are inputs of each line. The entry `LogEntry(**data)` builds is an input too. `EntryFromFields` states that it carries the line's level and module, as the source copies them; `SearchRespectsFilters` and `FilteredEntryOrigin` assume it.
- The formatters (JSON, ANSI colours, UTC timestamps), `RotatingFileHandler` rotation and the file reading of `get_recent_logs` are left out. The entries `get_recent_logs` returns are an input of `get_log_summary` and of `GetLogEntries`.
- StructuredLogging.Emit: the notice passed to the callback has no `timestamp` key. The source fills it from the clock (`datetime.utcnow()`), which is not modelled.
- `self.error(...)` in the `except` of `search_logs` writes one more log line; that write is not modelled.
- `_critical_callback` imports the notification manager and sends a notification. This foreign call is represented by the `DefaultCallback` value.
- The registry's `threading.Lock` is left out; the registry is modelled sequentially.
- `self.logger.propagate` and the `logging.getLogger` object are left out. The logger's handler list and level are fields of `StructuredLogger`.
- `LevelNumber` covers only the level names of the logging module. Other attribute names of the module (which `getattr` would also return) are treated as unknown names, giving INFO.
- `exc_info` and the `extra` field of formatted records are left out.
- The debug/info/trade/prediction/api_call convenience methods are left out, along with `set_level`/`get_level` and `setup_logging`/`get_logger`.
- Volume.Profile: the period is the pair of first and last timestamps, not date strings. The standard deviation is left to `sqrt`. The model proves that the average is the mean of the volumes, not the product form `avg·count = total`.
- Volume.Sma requires `period ≥ 1`. In the source a period of 0 divides by zero, and a negative period slices oddly.
- Volume.Ema requires `period ≠ −1` when there is a previous EMA. There the source raises ZeroDivisionError.
- Volume.DetectTrend and `Volume.TrendByRatio` require `min_periods ≥ 2`. With 1, `min_periods // 2` is 0 and the source divides by zero.
- Volume.MakeDecision does not model `datetime.now()`: the decision carries no timestamp.
- Volume.ShouldAllowEntry returns reason kinds instead of the formatted reason strings.
- Volume.VolumeAnalyzer.AnalyzeCandle requires the analyzer's periods as in its constructor (SMA period ≥ 1).
- PositionSizing.CalculateAtr takes the fetched rows as input. The database query and the exception handler that returns 0.0 on a failing query are not modelled.
- StructuredLogging.CleanupOldLogs models a failing `unlink` by the index at which it fails. Listing and stat'ing the backups are left out: the backups with their mtimes are an input.
