# BIST100 screener decision core

A model of the decision core of `bist100deneme.py`, a Streamlit screener for
shares of the Borsa Istanbul 100 index. The screener downloads a year of daily
bars for each chosen ticker and computes indicators. It then scores the last bar
against the previous one: it builds a list of signal tags ("sinyaller") and an
integer score ("skor"). From these it derives a decision label ("karar"), a
one-line commentary ("AI yorum") and a stop-loss with two targets. It keeps a row
for every ticker that has a tag or is held in the session portfolio. A separate
operation adds a purchase to that portfolio.

Indicator values are inputs to the model. A cell is a float that may be NaN
(`Frames.Value`), and every comparison with NaN is false, as in Python. The
prefixed columns (MACD_, ADX_, BBL_/BBU_, STOCHk_/STOCHd_, CDL_ENGULFING,
CDL_HAMMER) are looked up by name. The model treats each one as present in the
frame or not. A missing column makes its lookup raise, and that skips the rest of
the `try` block around it: a tag appended earlier in the block stays.

Modules:

- `Frames`: values, bars, frames and the strict crossover.
- `Decision`: `karar_ver` as an if/elif chain. An independent first-match rule table agrees with it on every input.
- `Signals`: the per-bar scoring.
  - The specification is a catalogue of 15 tags in test order, an `Active` predicate per tag and the sum of their points.
  - The scorer is a method with a running tag list and score, one helper method per check, proved against that specification.
- `Commentary`: `yapay_zeka_yorumu` as a sequence of clause kinds. Number formatting is dropped.
- `Risk`: the stop, the risk and the two targets over reals.
- `Holdings`: the session portfolio as a class with a map field, and `portfoy_ekle` as a method on it.
- `Scan`: the outer loop of `verileri_getir`. It is a method with a loop, proved against a function over the list of downloads.

## Model

| member | source | states |
|---|---|---|
| Frames.Scale | bist100deneme.py:523 | `Volume_SMA * 1.5` is NaN exactly when the mean is NaN, and is otherwise the product |
| Decision.Decide | bist100deneme.py:323-340 | rule 1 ("GÜÇLÜ SAT" on rsi > 75 and skor < 0) wins whatever else holds; rsi > 70 gives only sell labels; every buy label needs rsi ≤ 70 and skor ≥ 2; "GÜÇLÜ AL" holds iff rsi ≤ 70, skor ≥ 6 and the Bollinger signal is "AL"; "DİP BÖLGE" needs no buy rule to apply; "UZAK DUR" needs the sell and bottom rules to have failed; "İZLE" needs every earlier rule to have failed |
| Decision.FirstMatchWins | bist100deneme.py:325-340 | in an ordered rule table, the outcome is that of the first rule whose guard holds |
| Decision.FirstMatchFound | bist100deneme.py:325-340 | every answer of a rule table is the outcome of its first holding rule |
| Decision.DecideFollowsTable | bist100deneme.py:323-340 | the decision chain agrees on every input with the first-match evaluation of the eight-rule table |
| Decision.DecideByFirstRule | bist100deneme.py:323-340 | the label is that of rule i exactly when rule i holds and no earlier rule does, so rule order and not magnitude decides |
| Signals.Position | bist100deneme.py:447-557 | every tag has a place in the catalogue, which lists the checks in the order the scan runs them |
| Signals.EffectiveRsi | bist100deneme.py:440 | the RSI used is the last bar's RSI, or 50 when that is NaN |
| Signals.ScoreRsi | bist100deneme.py:447-453 | after the RSI check the tags are the active ones among RSI DİP and RSI ZİRVE and the score is their sum; ZİRVE is tested only when DİP fails |
| Signals.ScoreMacd | bist100deneme.py:455-465 | the MACD flag is set and +3 added iff both MACD columns exist and the line crosses strictly above its signal |
| Signals.ScoreGoldenCross | bist100deneme.py:467-472 | the golden-cross flag is set and +5 added iff SMA_50 crosses strictly above SMA_200 |
| Signals.ScoreTrend | bist100deneme.py:474-485 | ADX above 25 gives the strong trend (+1); otherwise ADX below 20 gives the weak-trend tag (0); neither without the ADX column |
| Signals.ScoreBands | bist100deneme.py:487-502 | the Bollinger signal is "AL" (+2) when close is under the lower band, else "SAT" (−2) when above the upper band; nothing unless both band columns exist |
| Signals.ScoreStoch | bist100deneme.py:504-519 | the stochastic signal is "AL" (+2) when %K < 20 and %K > %D, else "SAT" (−1) when %K > 80; nothing unless both columns exist |
| Signals.ScoreVolume | bist100deneme.py:521-526 | the volume flag is set and +1 added iff volume exceeds 1.5 times its 20-bar mean |
| Signals.ScoreObv | bist100deneme.py:528-535 | +1 and the PARA GİRİŞİ tag iff OBV exceeds its 20-bar mean |
| Signals.ScoreCandles | bist100deneme.py:537-552 | the engulfing (+2) and hammer (+2) checks share one lookup block; the hammer overrides the pattern name; a missing engulfing column also skips the hammer |
| Signals.ScoreBar | bist100deneme.py:436-557 | the running tag list is exactly the active tags in catalogue order, the score is their points' sum, and every flag handed on equals its check |
| Signals.ActiveSignalsStep | bist100deneme.py:447-557 | considering one more catalogue tag appends it exactly when its check fires |
| Signals.TotalPointsPush | bist100deneme.py:447-557 | appending a tag adds its points to the score, so score and tags move together |
| Signals.ActiveSignalsMembership | bist100deneme.py:447-557 | a tag is in the list iff it is in the catalogue and its check fires |
| Signals.ActiveSignalsDistinct | bist100deneme.py:447-557 | a catalogue without repeats yields a tag list without repeats |
| Signals.TotalPointsBetween | bist100deneme.py:447-557 | the score lies between the sum of all negative and the sum of all positive points of the catalogue |
| Signals.NegativePointsStep | bist100deneme.py:447-557 | the negative-points sum grows one catalogue tag at a time |
| Signals.PositivePointsStep | bist100deneme.py:447-557 | the positive-points sum grows one catalogue tag at a time |
| Signals.CatalogueNegativePoints | bist100deneme.py:447-557 | the negative contributions total −5 (RSI ZİRVE −2, BB ZİRVE −2, STOCH SAT −1) |
| Signals.CataloguePositivePoints | bist100deneme.py:447-557 | the positive contributions total 21 |
| Signals.ScoreBounds | bist100deneme.py:447-552 | −5 ≤ skor ≤ 21 for every bar |
| Signals.TagIffActive | bist100deneme.py:447-557 | each tag is in the list iff its check fires |
| Signals.EvaluateFlags | bist100deneme.py:456-538 | the MACD, golden-cross, trend, Bollinger, stochastic, volume and pattern values passed on agree with the tag list |
| Signals.ExclusiveTags | bist100deneme.py:448-517 | the RSI, ADX, Bollinger and stochastic branches are exclusive: never both tags of one chain |
| Signals.MacdCrossStrict | bist100deneme.py:457-463 | the MACD tag appears iff both columns exist, all four values are numbers, line > signal now and line < signal before; a tie before never fires |
| Signals.GoldenCrossStrict | bist100deneme.py:469-472 | the golden-cross tag appears iff all four averages are numbers, SMA_50 > SMA_200 now and SMA_50 < SMA_200 before; a tie before never fires |
| Signals.LookupBlocks | bist100deneme.py:489-552 | a stochastic sell needs the %D column, a hammer needs the engulfing column, a Bollinger sell needs the lower-band column |
| Signals.PortfolioTagLast | bist100deneme.py:554-557 | the ticker is held iff the list ends with the PORTFÖYDE tag |
| Signals.TagsDistinct | bist100deneme.py:447-557 | no tag appears twice in the list |
| Commentary.RsiClauses | bist100deneme.py:346-353 | at most one RSI clause |
| Commentary.MacdClauses | bist100deneme.py:355-356 | one MACD clause exactly when the MACD crossed up, none otherwise |
| Commentary.TrendClauses | bist100deneme.py:358-361 | exactly one trend clause, in the trend slot |
| Commentary.GoldenCrossClauses | bist100deneme.py:363-364 | one golden-cross clause exactly when the cross fired, none otherwise |
| Commentary.PatternClauses | bist100deneme.py:365-366 | at most one candle clause, present exactly when the pattern name is non-empty |
| Commentary.BandClauses | bist100deneme.py:367-368 | at most one Bollinger clause, present exactly when the signal is set |
| Commentary.StochClauses | bist100deneme.py:369-370 | at most one stochastic clause, present exactly when the signal is set |
| Commentary.VolumeClauses | bist100deneme.py:371-372 | one volume clause exactly when the volume flag is set, none otherwise |
| Commentary.Remarks | bist100deneme.py:342-375 | the commentary is always the joined clause list with 1 to 8 clauses; the fallback "Normal piyasa koşulları" is unreachable |
| Commentary.RankedPush | bist100deneme.py:344-373 | appending a clause of a later slot keeps the clause list in slot order |
| Commentary.RankedSlots | bist100deneme.py:344-373 | eight slots appended in order give a list in strictly increasing slot order |
| Commentary.SlotMembership | bist100deneme.py:344-373 | a clause of a given slot can come only from that slot's segment |
| Commentary.ClausesInFixedOrder | bist100deneme.py:344-373 | the clauses appear in the fixed order RSI, MACD, trend, golden cross, pattern, Bollinger, stochastic, volume, each at most once |
| Commentary.OneTrendClause | bist100deneme.py:358-361 | "Güçlü trend" is present iff the trend is strong and "Yatay piyasa" iff it is not |
| Commentary.ClausePresence | bist100deneme.py:355-373 | the MACD, golden-cross, candle, Bollinger, stochastic and volume clauses are each present iff their flag is set, and carry its value |
| Commentary.RsiClauseBands | bist100deneme.py:346-353 | the RSI clause follows the bands below 25, 25 to 30, above 75 and 70 to 75, each clause iff its band |
| Risk.EffectiveAtr | bist100deneme.py:441 | the ATR used is the last bar's ATR, or 0 when that is NaN |
| Risk.FloorAtZero | bist100deneme.py:565 | `max(0, x)` is at least 0 and at least x, and is one of them |
| Risk.RiskLevels | bist100deneme.py:441-442 | risk ≥ 0; price ≤ target 1 ≤ target 2 with target 1 − price = 2·risk and target 2 − price = 3·risk; the stop lies ATR·multiplier below the price; with no ATR the stop, both targets and the price coincide and risk is 0 |
| Risk.StopBelowPrice | bist100deneme.py:441-442 | with a non-negative ATR and multiplier the stop is at or below the price and the risk is the price-to-stop distance |
| Risk.StopAbovePriceFloors | bist100deneme.py:565-567 | a negative ATR product puts the stop above the price, the risk floors at 0 and both targets equal the price; the program never produces this input (ATR ≥ 0, multiplier 1.5 to 3.0) |
| Holdings.Merge | bist100deneme.py:175-183 | re-buying adds the quantities and keeps the total outlay: new cost × new quantity = old outlay + new outlay |
| Holdings.MergedCostBetween | bist100deneme.py:177-178 | for positive quantities the averaged cost lies between the old cost and the new price |
| Holdings.MergeSamePrice | bist100deneme.py:177-178 | re-buying at the held cost leaves the average cost unchanged |
| Holdings.Portfolio.constructor | bist100deneme.py:85-86 | the session portfolio starts empty |
| Holdings.Portfolio.Lookup | bist100deneme.py:175-176 | the holding of a ticker is found iff the ticker is a key |
| Holdings.Portfolio.Add | bist100deneme.py:173-189 | a known ticker is merged (summed quantity, weighted cost, new stamp), a new one inserted as given; the keys gain only that ticker, every other entry is unchanged, and positive quantities stay positive |
| Scan.TickerName | bist100deneme.py:555 | removing ".IS" never lengthens the symbol and leaves a dot-free symbol unchanged |
| Scan.TickerNameOfSymbol | bist100deneme.py:555 | the portfolio key of "NAME.IS" is NAME for a dot-free name |
| Scan.RowFor | bist100deneme.py:387-581 | a ticker yields a row iff it has a frame of at least 100 bars, long enough for the 200-bar average, and a tag or a holding; the row carries the stripped name and the last close |
| Scan.Present | bist100deneme.py:569-581 | appending only the rows that exist never gives more rows than tickers |
| Scan.KeptRows | bist100deneme.py:383-584 | the scan never has more rows than tickers |
| Scan.KeptRowsStep | bist100deneme.py:383-581 | scanning one more ticker appends its row, if any, after the rows so far: at most one row per ticker, in scan order |
| Scan.AnalyzeTicker | bist100deneme.py:387-581 | scoring one ticker with the scorer method gives exactly the row of the specification |
| Scan.ScanAll | bist100deneme.py:377-588 | the loop's result is the list of kept rows in scan order |
| Scan.ShortHistorySkipped | bist100deneme.py:391-392 | a frame of fewer than 100 bars gives no row, whatever its indicators say |
| Scan.NoLongAverageDropped | bist100deneme.py:469 | a frame of 100 to 199 bars has no SMA_200 series, so the golden-cross comparison raises and the ticker gives no row |
| Scan.KeptIffTagged | bist100deneme.py:554-569 | with at least 200 bars, a ticker is kept iff its tag list is non-empty; a held ticker is always kept and its tags end with PORTFÖYDE |
| Scan.RowBounds | bist100deneme.py:436-581 | every row has −5 ≤ score ≤ 21, price ≤ target 1 ≤ target 2 and a non-empty commentary |
| Scan.PresentMembership | bist100deneme.py:569-581 | a row is in the result iff some ticker produced it |
| Scan.KeptRowsMembership | bist100deneme.py:383-584 | a row is in the scan result iff some ticker's analysis produced it |
| Scan.EveryRowTagged | bist100deneme.py:383-584 | every row of the scan carries at least one tag |

## Left out

- Indicator computation (RSI, MACD, SMA, ADX, ATR, Bollinger bands, stochastic, OBV and its 20-bar mean, candle patterns): these are calls into pandas_ta. The last and previous bars' values are inputs.
- The prefixed column lookups are modelled as a set of present columns per frame, not as string prefix searches over column names.
- An indicator call that returns None leaves a column of None. For RSI and ATR the `pd.isna` tests at lines 440-441 give 50 and 0, as the model's NaN does. The OBV comparison sits inside its own `try`, so only that check is skipped. The SMA_200 case (a series shorter than 200 bars) is modelled in `Scan.RowFor`: the unguarded golden-cross comparison at line 469 raises and the ticker is dropped. It rests on the indicator library returning None for a series shorter than its window.
- A NaN closing price is not modelled: the close is a plain real.
- Downloads (`yf.download`) and the MultiIndex flattening are inputs. A download that raised carries no frame.
- `Scan.AnalyzeTicker`: an exception raised outside the guarded blocks while the row is built is not modelled, beyond a missing frame.
- Rounding to two decimals of the price, RSI and stop-loss is left out: all are reals, and the RSI thresholds compare unrounded values.
- `Risk.RiskLevels`: the levels are exact reals, not binary floats.
- The sidebar settings (`rsi_alt`, `rsi_ust`, `atr_mult`) are the fields of `Signals.Config`. The Bollinger length only feeds the indicator computation.
- The progress bar, the status caption, the result table, its sort by score, the charts and all other Streamlit UI are not modelled.
- `piyasa_verilerini_cek` (index, currency and gram-gold quotes) is I/O with float ratios. `portfoy_hesapla` (current portfolio value) needs fresh price downloads. Neither is modelled.
- Deleting a holding from the portfolio card is a UI action and is not modelled.
- `last_alerts` is initialised but never used, so there is nothing to model.
- The doji pattern is computed but never read by the scan.
- `Holdings.Portfolio.Add`: the timestamp from `datetime.now()` is a parameter.
- Holdings.Merge: costs are exact reals, not binary floats, so the outlay identity holds for the program only up to float rounding of the division at line 178.
- Holdings.MergedCostBetween: over binary floats the averaged cost can drift just outside the two prices (one share at 0.1 plus two at 0.1 averages to 0.10000000000000002); the model states the exact-real property.
- Holdings.MergeSamePrice: holds over exact reals only; binary float division can move the cost by the last bit.
- `Holdings.Merge`: when the new total quantity is 0 the source divides by zero. The model's precondition excludes that case rather than modelling the exception; the purchase form only allows quantities of at least 1.
- With no ATR (line 441) the stop is the price itself, so the risk is 0 and both targets equal the price; the model follows that.
