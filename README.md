# WeathWise ml-services: a verified model of the decision logic

This project models, in Dafny, the deterministic logic of six files of the
WeathWise machine-learning services, and proves properties of it. The
network, the market-data downloads, the numeric libraries and the language
model are inputs or function parameters. What the services decide from
their results is modelled line by line.

- `PortfolioOptimizer` (`portfolio_optimizer.dfy`) covers
  `services/portfolio_optimizer.py`:
  - the period-fallback download loop;
  - simple daily returns;
  - the annualised return, volatility and Sharpe ratio, with the guard for zero volatility;
  - the risk-tolerance multiplier table;
  - the constraint set and the equal-weight starting point handed to the solver;
  - the error paths of `optimize`;
  - random frontier sampling, where each draw is normalised in place;
  - maximum drawdown from the cumulative product and its running maximum;
  - downside deviation.

  The optimizer is a class. Its arrays of samples are filled by a loop.
- `SentimentAnalyzer` (`sentiment_analyzer.dfy`) covers
  `services/sentiment_analyzer.py`:
  - forward-return labels with the ±2% band;
  - RSI over 14-day rolling means;
  - MACD and its signal line, from pandas' adjusted exponential averages;
  - the six-column feature table and its `dropna`;
  - the training-data loop and the NaN mask;
  - the train/test split sizes;
  - the `MarketSentimentAnalyzer` class, whose fitted state, `is_trained` flag and `last_metrics` only `train_model` changes, and the guards of `predict_sentiment`.
- `BackendProxy` (`backend_proxy.dfy`) covers the financial-context
  aggregation of `services/backend_proxy.py`:
  - profile normalisation, with its display-name and risk-level preference chains;
  - `_calculate_analytics`, block by block: the net worth, the account, asset and debt totals, the allocation code that sits under their `except`, the transaction sums and savings rate, and budget utilisation, with Python's rule that `True`/`1` and `False`/`0` are one dict key;
  - the storing of the fetched results;
  - the synthesis or enrichment of a portfolio from the investments;
  - the legacy mirror keys.
- `FinancialDataService` (`financial_data_service.dfy`) covers
  `services/financial_data_service.py`:
  - the context `get_user_financial_context` fetches, request by request, where the first exception ends the requests and keeps what was already stored;
  - the monthly income and expense sums;
  - goal progress;
  - the quick insights.
- `Recommendations` (`recommendations.dfy`) covers `routes/recommendations.py`:
  - the bearer token and the context guard;
  - the clamp of the requested count;
  - cutting the JSON array out of the model's reply;
  - coercing and truncating each item;
  - the top-up with default recommendations.
- `AiChat` (`ai_chat.dfy`) covers `routes/ai_chat.py`:
  - the chat confidence and cited sources;
  - sentiment normalisation and its confidence;
  - the parser of `ollama list` output.
- Five helper modules stand in for Python built-ins:
  - `Maybe` holds `Option` and `Result`;
  - `PyJson` holds decoded JSON values, with Python truthiness, `dict.get`, `or` and `float`;
  - `PyText` holds the `str` methods;
  - `PyDict` holds `dict(zip(...))`;
  - `RealSeq` holds sums and extrema over reals.

Floating point is modelled as `real`. A pandas NaN is modelled as `None`.
A Python exception is an `Err` result where it reaches the caller. Where
the code catches it, the state is the one reached before the raise.

Where the code differs from what a reader might expect, the model follows the code:
- `optimize` does not fall back to equal weights when the solver fails: it raises "Optimization failed".
- `efficient_frontier` does not clamp `num_portfolios`: a negative count raises, and zero gives empty results.
- In `_calculate_analytics` the investment-allocation code sits inside the `except` of the account, asset and debt aggregation. It runs only when that aggregation raises. `AllocationOnlyAfterAggregationError` proves this.

## Model

| member | source | states |
|---|---|---|
| PortfolioOptimizer.Values | ml-services/services/portfolio_optimizer.py:42-44 | a complete row's values, one per cell, in order |
| PortfolioOptimizer.DropNa | ml-services/services/portfolio_optimizer.py:42-44 | `dropna` keeps a rectangular frame no longer than its input, and drops nothing when every row is complete |
| PortfolioOptimizer.Usable | ml-services/services/portfolio_optimizer.py:33-48 | an attempt yields a non-empty rectangular frame or nothing; an empty or failed download yields nothing |
| PortfolioOptimizer.FirstUsable | ml-services/services/portfolio_optimizer.py:30-51 | the result exists exactly when some attempt succeeded, and is the first successful attempt |
| PortfolioOptimizer.Attempts | ml-services/services/portfolio_optimizer.py:29-32 | the attempts are the requested period, then "1y", then "6mo", each judged by `Usable` |
| PortfolioOptimizer.HistoricalData | ml-services/services/portfolio_optimizer.py:25-51 | no yfinance or no symbols gives the empty frame; a result is a non-empty rectangular frame |
| PortfolioOptimizer.PortfolioOptimizer.GetHistoricalData | ml-services/services/portfolio_optimizer.py:25-51 | the retry loop returns exactly `HistoricalData` (the first usable period, in order), a non-empty rectangular frame |
| PortfolioOptimizer.Column | ml-services/services/portfolio_optimizer.py:96 | `returns[sym]` holds column j of every row |
| PortfolioOptimizer.RowReturn | ml-services/services/portfolio_optimizer.py:53-54 | a day's return exists iff no previous price is 0, and is then the price ratio minus one per asset |
| PortfolioOptimizer.Returns | ml-services/services/portfolio_optimizer.py:53-54 | `pct_change().dropna()` keeps the frame's width and has at most one row fewer than the prices |
| PortfolioOptimizer.ReturnsOfNonZeroPrices | ml-services/services/portfolio_optimizer.py:53-54 | with no zero price exactly the first row is dropped and every return is the day-over-day ratio minus one |
| PortfolioOptimizer.DotRepeat | ml-services/services/portfolio_optimizer.py:57 | weighting a constant vector of means gives that mean times the total weight |
| PortfolioOptimizer.Means | ml-services/services/portfolio_optimizer.py:57 | `returns.mean()` is the mean of each column |
| PortfolioOptimizer.AnnualReturnOfEqualMeans | ml-services/services/portfolio_optimizer.py:57 | fully invested in assets sharing the daily mean m, the annual return is 252 m |
| PortfolioOptimizer.AnnualCovariance | ml-services/services/portfolio_optimizer.py:58 | the annualised covariance matrix is square, one row and column per asset |
| PortfolioOptimizer.PortfolioOptimizer.PortfolioStats | ml-services/services/portfolio_optimizer.py:56-60 | the Sharpe ratio times a positive volatility is the excess return over the risk-free rate; with zero or NaN volatility it is exactly 0 |
| PortfolioOptimizer.RiskMultiplier | ml-services/services/portfolio_optimizer.py:72 | conservative is 0.5, aggressive 1.5, and every other tolerance (both directions) 1.0 |
| PortfolioOptimizer.SetUp | ml-services/services/portfolio_optimizer.py:68-86 | equal initial weights 1/n, bounds [0, 1], full investment always; the return constraint and volatility objective exactly when a target is given, otherwise the negative Sharpe ratio over the optimizer's risk-free rate, scaled by the risk multiplier |
| PortfolioOptimizer.InitialPointFeasible | ml-services/services/portfolio_optimizer.py:69-70 | the equal-weight starting point lies within the bounds and sums to 1 |
| PortfolioOptimizer.PortfolioOptimizer.Optimize | ml-services/services/portfolio_optimizer.py:62-112 | no prices raises "Price data unavailable for symbols"; otherwise the result is what `Optimized` describes for the fetched frame |
| PortfolioOptimizer.PortfolioOptimizer.OptimizeOver | ml-services/services/portfolio_optimizer.py:66-112 | a failed solve raises "Optimization failed: " plus the solver message; a success returns the solver's weights keyed by symbol with the statistics, asset figures and risk metrics of those weights |
| PortfolioOptimizer.PortfolioOptimizer.CollectAssetStats | ml-services/services/portfolio_optimizer.py:94-101 | the loop builds exactly the per-asset map, and stops at the first symbol that has no column |
| PortfolioOptimizer.ColumnIndex | ml-services/services/portfolio_optimizer.py:96 | a column is found iff the symbol is among the columns, and it then carries that name |
| PortfolioOptimizer.AssetStatsMissing | ml-services/services/portfolio_optimizer.py:95-96 | one symbol without a column makes the whole asset-stats step fail |
| PortfolioOptimizer.Normalize | ml-services/services/portfolio_optimizer.py:126 | each weight is the draw's entry divided by the draw's total |
| PortfolioOptimizer.NormalizedIsWeighting | ml-services/services/portfolio_optimizer.py:125-127 | a normalised non-negative draw sums to 1 and every weight lies in [0, 1] |
| PortfolioOptimizer.NormalizedSumsToOne | ml-services/services/portfolio_optimizer.py:126 | normalised weights sum to 1 |
| PortfolioOptimizer.NormalizeIsScale | ml-services/services/portfolio_optimizer.py:126 | dividing by the total is scaling by its reciprocal |
| PortfolioOptimizer.TermAtMostSum | ml-services/services/portfolio_optimizer.py:126 | no entry of a non-negative draw exceeds its total |
| PortfolioOptimizer.Weightings | ml-services/services/portfolio_optimizer.py:123-127 | the i-th sampled weighting is the i-th draw normalised |
| PortfolioOptimizer.Sample | ml-services/services/portfolio_optimizer.py:125-126 | the copied, normalised draw equals `Normalize` of the draw |
| PortfolioOptimizer.NormalizeInPlace | ml-services/services/portfolio_optimizer.py:126 | `w /= np.sum(w)` leaves the array equal to the normalised old contents |
| PortfolioOptimizer.PortfolioOptimizer.EfficientFrontier | ml-services/services/portfolio_optimizer.py:114-138 | no prices and a negative count are errors; otherwise the result is a sampled frontier |
| PortfolioOptimizer.PortfolioOptimizer.SampleFrontier | ml-services/services/portfolio_optimizer.py:120-138 | the frontier has `count` entries (it succeeds iff the count is 0 or the frame has one column per symbol), each weighting sums to 1 with weights in [0, 1], and its statistics sit at the same index |
| PortfolioOptimizer.PortfolioOptimizer.FillSamples | ml-services/services/portfolio_optimizer.py:121-131 | the sampling loop fills `weights` with the normalised draws and `results` with their statistics, index by index |
| PortfolioOptimizer.PortfolioOptimizer.FrontierOf | ml-services/services/portfolio_optimizer.py:133-138 | the three result columns are the statistics of each sample, in order, beside its weights |
| PortfolioOptimizer.PortfolioOptimizer.FrontierSampled | ml-services/services/portfolio_optimizer.py:124-138 | index-wise statistics of the normalised draws make a valid sampled frontier |
| PortfolioOptimizer.PortfolioReturns | ml-services/services/portfolio_optimizer.py:141 | each day's portfolio return is that day's returns weighted by the weights |
| PortfolioOptimizer.Cumulative | ml-services/services/portfolio_optimizer.py:143 | the cumulative index has one entry per day and starts at 1 plus the first return |
| PortfolioOptimizer.CumulativeAt | ml-services/services/portfolio_optimizer.py:143 | each later day multiplies the previous index by 1 plus that day's return |
| PortfolioOptimizer.CumulativePositive | ml-services/services/portfolio_optimizer.py:143 | while no daily loss reaches 100% the index stays positive |
| PortfolioOptimizer.CumulativeNonDecreasing | ml-services/services/portfolio_optimizer.py:143-144 | with no losing day the index is at least 1 and never falls |
| PortfolioOptimizer.CumulativeStep | ml-services/services/portfolio_optimizer.py:143 | a day without a loss does not lower an index that is at least 1 |
| PortfolioOptimizer.RunningMax | ml-services/services/portfolio_optimizer.py:144 | each entry is the maximum of the index up to that day |
| PortfolioOptimizer.RunningMaxIsPeak | ml-services/services/portfolio_optimizer.py:144 | the running maximum is at least the day's index, never falls, and is an index value already seen |
| PortfolioOptimizer.Drawdowns | ml-services/services/portfolio_optimizer.py:145 | one drawdown per day, defined exactly when the running maximum is not 0 |
| PortfolioOptimizer.DrawdownAtPeak | ml-services/services/portfolio_optimizer.py:145 | a day that sets a new high has drawdown 0 |
| PortfolioOptimizer.DrawdownBounds | ml-services/services/portfolio_optimizer.py:143-145 | with no 100% daily loss every drawdown lies in (-1, 0] |
| PortfolioOptimizer.MinDefined | ml-services/services/portfolio_optimizer.py:146 | the NaN-skipping minimum is absent iff every entry is NaN, and is otherwise a defined entry no greater than any other |
| PortfolioOptimizer.DrawdownAt | ml-services/services/portfolio_optimizer.py:143-145 | while the index is positive each day's drawdown is defined and at most 0 |
| PortfolioOptimizer.MaxDrawdownNonPositive | ml-services/services/portfolio_optimizer.py:143-146 | without a 100% daily loss the maximum drawdown exists and is at most 0 |
| PortfolioOptimizer.NoDrawdownAt | ml-services/services/portfolio_optimizer.py:143-145 | with no losing day every day's drawdown is exactly 0 |
| PortfolioOptimizer.MaxDrawdownWithoutLosses | ml-services/services/portfolio_optimizer.py:143-146 | with no losing day the maximum drawdown is exactly 0 |
| PortfolioOptimizer.Below | ml-services/services/portfolio_optimizer.py:151 | every selected return is below the target and among the returns, and every below-target return is selected |
| PortfolioOptimizer.BelowCount | ml-services/services/portfolio_optimizer.py:151 | the selection holds each below-target return as many times as the returns do, and nothing else |
| PortfolioOptimizer.BelowSnoc | ml-services/services/portfolio_optimizer.py:151 | one more return is appended to the selection exactly when it is below the target |
| PortfolioOptimizer.BelowAppend | ml-services/services/portfolio_optimizer.py:151 | the selection of a concatenation is the two selections in order, so the returns keep their order |
| PortfolioOptimizer.BelowSingle | ml-services/services/portfolio_optimizer.py:151 | one return is kept exactly when it is strictly below the target |
| PortfolioOptimizer.DownsideDeviation | ml-services/services/portfolio_optimizer.py:150-154 | 0 when no return is below the target, otherwise the annualised root mean square of the selection `Below`, in which `BelowCount` counts every below-target return as often as it occurs |
| PortfolioOptimizer.DownsideDeviationNonNegative | ml-services/services/portfolio_optimizer.py:150-154 | with a non-negative square root the downside deviation is never negative |
| PortfolioOptimizer.PortfolioOptimizer.constructor | ml-services/services/portfolio_optimizer.py:22-23 | the optimizer keeps the risk-free rate it is given |
| SentimentAnalyzer.Closes | ml-services/services/sentiment_analyzer.py:84 | the close series holds each row's close, in order |
| SentimentAnalyzer.LabelOf | ml-services/services/sentiment_analyzer.py:103-106 | a defined forward return is always labelled: positive iff above +2%, negative iff below -2%, neutral iff within the closed band |
| SentimentAnalyzer.LabelAt | ml-services/services/sentiment_analyzer.py:100-107 | a day has a label iff its five-day forward return is defined |
| SentimentAnalyzer.Labels | ml-services/services/sentiment_analyzer.py:100-107 | one label entry per day, each the label of that day |
| SentimentAnalyzer.LabelledDays | ml-services/services/sentiment_analyzer.py:100-107 | a day is labelled iff a close five days ahead exists and its own close is non-zero; the last five days never are |
| SentimentAnalyzer.Gains | ml-services/services/sentiment_analyzer.py:65-66 | the gain series is as long as the closes and never negative |
| SentimentAnalyzer.Losses | ml-services/services/sentiment_analyzer.py:65-67 | the loss series is as long as the closes and never negative |
| SentimentAnalyzer.RollingMeanNonNegative | ml-services/services/sentiment_analyzer.py:66-67 | a rolling mean of non-negative values is non-negative |
| SentimentAnalyzer.RsiOf | ml-services/services/sentiment_analyzer.py:68-69 | with a positive mean loss RSI lies in [0, 100); with no loss it is 100 after a gain and NaN otherwise |
| SentimentAnalyzer.Rsi | ml-services/services/sentiment_analyzer.py:64-69 | RSI is only defined from the 14th day on and always lies in [0, 100] |
| SentimentAnalyzer.RsiRange | ml-services/services/sentiment_analyzer.py:64-69 | from the 14th day on, a window that saw a loss gives a defined RSI below 100 |
| SentimentAnalyzer.Decay | ml-services/services/sentiment_analyzer.py:73-76 | the decay factor of `ewm(span=s)` lies in [0, 1) |
| SentimentAnalyzer.EwmWeight | ml-services/services/sentiment_analyzer.py:73-76 | the adjusted EMA's total weight is at least 1 |
| SentimentAnalyzer.Ewm | ml-services/services/sentiment_analyzer.py:73-76 | one EMA value per day |
| SentimentAnalyzer.EwmNumeratorBounds | ml-services/services/sentiment_analyzer.py:73-76 | the EMA numerator lies between the lowest and highest value seen, times the weight |
| SentimentAnalyzer.EwmAt | ml-services/services/sentiment_analyzer.py:73-76 | bounds on the numerator carry over to the EMA of that day |
| SentimentAnalyzer.EwmWithinRange | ml-services/services/sentiment_analyzer.py:73-76 | an exponential moving average stays within the range of the values seen so far |
| SentimentAnalyzer.Macd | ml-services/services/sentiment_analyzer.py:73-75 | the MACD line is EMA(12) minus EMA(26), day by day |
| SentimentAnalyzer.MacdSignal | ml-services/services/sentiment_analyzer.py:76 | one signal value per day |
| SentimentAnalyzer.MacdSignalWithinRange | ml-services/services/sentiment_analyzer.py:76 | the signal line stays within the range of the MACD values seen so far |
| SentimentAnalyzer.FlatMacd | ml-services/services/sentiment_analyzer.py:72-77 | a flat price history has a zero MACD line and a zero signal line |
| SentimentAnalyzer.Columns | ml-services/services/sentiment_analyzer.py:96 | a feature row has the six selected columns |
| SentimentAnalyzer.FeatureAt | ml-services/services/sentiment_analyzer.py:85-97 | a day has a feature row iff RSI, the 1-, 5- and 20-day changes and the volume average are all defined; such a day is at least day 20 and carries its RSI |
| SentimentAnalyzer.FeatureTable | ml-services/services/sentiment_analyzer.py:85-95 | the table holds the feature row of every day |
| SentimentAnalyzer.DefinedRows | ml-services/services/sentiment_analyzer.py:95-97 | `dropna` keeps exactly the defined days, in increasing day order, each with its own row |
| SentimentAnalyzer.FeaturesFromHistory | ml-services/services/sentiment_analyzer.py:80-97 | an empty frame gives no features; a frame without Volume raises; otherwise exactly the fully defined days, in order, none before day 20 |
| SentimentAnalyzer.LatestFeatureDay | ml-services/services/sentiment_analyzer.py:200 | `feats.tail(1)` is the latest day with a feature row: no later day has one |
| SentimentAnalyzer.LaterDayAbsent | ml-services/services/sentiment_analyzer.py:200 | rows ordered by day hold none for a day after the last one |
| SentimentAnalyzer.Align | ml-services/services/sentiment_analyzer.py:139-142 | each aligned row pairs a day's features with that same day's label |
| SentimentAnalyzer.SymbolPart | ml-services/services/sentiment_analyzer.py:131-146 | a symbol contributes only when it yields at least 30 aligned rows |
| SentimentAnalyzer.Parts | ml-services/services/sentiment_analyzer.py:128-148 | at most one part per symbol, each of at least 30 rows |
| SentimentAnalyzer.GatherParts | ml-services/services/sentiment_analyzer.py:125-148 | the loop collects exactly the parts of the usable symbols, in order |
| SentimentAnalyzer.Mask | ml-services/services/sentiment_analyzer.py:157-159 | every kept sample is a labelled input row with its label (order and multiplicity by `MaskOne` and `MaskAppend`) |
| SentimentAnalyzer.MaskCount | ml-services/services/sentiment_analyzer.py:157-159 | the kept samples and the dropped rows together number every row |
| SentimentAnalyzer.Unlabelled | ml-services/services/sentiment_analyzer.py:157 | every dropped row is an input row without a label |
| SentimentAnalyzer.MaskOne | ml-services/services/sentiment_analyzer.py:157-159 | one row is kept as its own sample exactly when it carries a label, and dropped otherwise |
| SentimentAnalyzer.MaskAppend | ml-services/services/sentiment_analyzer.py:157-159 | the mask works row by row: kept samples and dropped rows of a concatenation are those of its parts, in order, so each labelled row is kept once and in place |
| SentimentAnalyzer.TestSize | ml-services/services/sentiment_analyzer.py:161 | the test split is 20% of the rows, rounded up |
| SentimentAnalyzer.TrainSize | ml-services/services/sentiment_analyzer.py:161 | the training and test splits together hold every row |
| SentimentAnalyzer.LabelsOf | ml-services/services/sentiment_analyzer.py:154 | `y` holds each sample's label, in order |
| SentimentAnalyzer.Count | ml-services/services/sentiment_analyzer.py:161 | a class count is positive iff the class occurs |
| SentimentAnalyzer.Classes | ml-services/services/sentiment_analyzer.py:205 | the classes are exactly the labels present, without repeats, one to three of them |
| SentimentAnalyzer.SplitSizes | ml-services/services/sentiment_analyzer.py:161 | a split that succeeds has non-empty training and test parts that together hold every row |
| SentimentAnalyzer.ArgMax | ml-services/services/sentiment_analyzer.py:202-207 | the predicted class is at a largest probability |
| SentimentAnalyzer.FullPrediction | ml-services/services/sentiment_analyzer.py:200-221 | the most probable class is both the technical and the combined sentiment; its probability is the confidence and no class's probability exceeds it; the news part is neutral at 0; the symbol is upper-cased |
| SentimentAnalyzer.PredictFrom | ml-services/services/sentiment_analyzer.py:192-221 | no Volume column raises; no feature row gives the neutral, zero-confidence answer; otherwise the latest row is classified |
| SentimentAnalyzer.MarketSentimentAnalyzer.constructor | ml-services/services/sentiment_analyzer.py:118-122 | a new analyzer is untrained, with no metrics |
| SentimentAnalyzer.MarketSentimentAnalyzer.TrainModel | ml-services/services/sentiment_analyzer.py:124-183 | no usable symbol raises "No valid training data from provided symbols"; training succeeds iff some symbol is usable and the split succeeds; every failure leaves the object unchanged; a success fits scaler and forest on the masked samples and records metrics whose counts add up to the samples |
| SentimentAnalyzer.MarketSentimentAnalyzer.PredictSentiment | ml-services/services/sentiment_analyzer.py:185-221 | an untrained analyzer raises "Model must be trained before predicting"; otherwise the answer is the one `PredictFrom` gives for the 240-day history |
| BackendProxy.GetIfDict | ml-services/services/backend_proxy.py:166 | a non-dict gives None; a dict gives the value stored under the key |
| BackendProxy.FirstTruthy | ml-services/services/backend_proxy.py:186-195 | a chain of `if not x` fallbacks yields the first truthy candidate, and the fallback only when every candidate is falsy |
| BackendProxy.FullName | ml-services/services/backend_proxy.py:186-187 | "first last" is built only when either part is truthy, and is then a string |
| BackendProxy.DisplayName | ml-services/services/backend_proxy.py:184-195 | the display name is never empty and is one of: "first last", the nested name, the user's name, the email, "User" |
| BackendProxy.RiskLevel | ml-services/services/backend_proxy.py:197-202 | the risk level is never empty and is the first truthy of the risk profile's `level`, its `riskLevel` and the nested risk tolerance, in that order, else "moderate" |
| BackendProxy.NormalizeProfile | ml-services/services/backend_proxy.py:160-214 | the normalised profile of a user dict is a dict (its fields are stated by the lemmas below) |
| BackendProxy.ProfileKeys | ml-services/services/backend_proxy.py:204-212 | the concise profile has exactly the keys name, email, role, riskProfile, investmentExperience, firstName and lastName, whatever the record holds |
| BackendProxy.ProfileName | ml-services/services/backend_proxy.py:205 | the profile's name is the display name and is never blank |
| BackendProxy.ProfileRisk | ml-services/services/backend_proxy.py:208 | the profile's risk profile is a dict holding just the risk level |
| BackendProxy.ProfileExperience | ml-services/services/backend_proxy.py:204-212 | the investment experience is the record's own when it has a truthy one, and "Beginner" otherwise |
| BackendProxy.FullNameFirst | ml-services/services/backend_proxy.py:186-188 | a non-blank "first last" is the display name, whatever else the record holds |
| BackendProxy.AnonymousUser | ml-services/services/backend_proxy.py:184-195 | with no name of any kind and no email, the display name is "User" |
| BackendProxy.RiskProfileFirst | ml-services/services/backend_proxy.py:199-202 | a risk profile's own truthy level wins over the nested risk tolerance |
| BackendProxy.RiskLevelSecond | ml-services/services/backend_proxy.py:199-200 | a falsy `level` falls through to a truthy `riskLevel` |
| BackendProxy.RiskToleranceThird | ml-services/services/backend_proxy.py:201-202 | the nested risk tolerance is taken only when both risk-profile fields are falsy |
| BackendProxy.ModerateByDefault | ml-services/services/backend_proxy.py:207 | with every candidate falsy the level is "moderate" |
| BackendProxy.Elements | ml-services/services/backend_proxy.py:468-554 | `for x in v` succeeds exactly on a list, string or dict; a list yields its items, and a string or dict yields no dict |
| BackendProxy.TotalNonNegative | ml-services/services/backend_proxy.py:518-538 | an accumulation of non-negative terms is non-negative |
| BackendProxy.TotalOfDicts | ml-services/services/backend_proxy.py:473-498 | when non-dict entries contribute nothing, a list's total is the total over its dict entries |
| BackendProxy.Dicts | ml-services/services/backend_proxy.py:473-498 | the dict entries of a list: every one is a dict of the list, and every dict of the list is among them |
| BackendProxy.AccountBalance | ml-services/services/backend_proxy.py:474-480 | a non-dict account adds 0; a truthy `balance` is the one read, as `float`, 0 when unparsable |
| BackendProxy.AssetValue | ml-services/services/backend_proxy.py:483-489 | a non-dict asset adds 0; a truthy `valuation` is the one read, as `float`, 0 when unparsable |
| BackendProxy.DebtBalance | ml-services/services/backend_proxy.py:492-498 | a non-dict debt adds 0; a truthy `currentBalance` is the one read, as `float`, 0 when unparsable |
| BackendProxy.Totals | ml-services/services/backend_proxy.py:468-501 | the aggregation completes exactly when the accounts, physical assets and debts (an empty list when falsy) can all be iterated |
| BackendProxy.Types | ml-services/services/backend_proxy.py:510 | every holding's `type` (default "unknown") is among the asset types |
| BackendProxy.Allocation | ml-services/services/backend_proxy.py:509-513 | the allocation only has entries for asset types of the holdings, never two keys for one dict entry, and, when no type raises, an entry for every type or its equal twin |
| BackendProxy.AllocationMergesTwins | ml-services/services/backend_proxy.py:509-513 | holdings of type `True` and `1` share one entry, kept under `True`, the key inserted first, with both shares added |
| BackendProxy.KeyFor | ml-services/services/backend_proxy.py:513 | a dict files a key under itself or under its equal twin (`True`/`1`, `False`/`0`) already present, and finds an entry exactly when either is a key |
| BackendProxy.GetItem | ml-services/services/backend_proxy.py:513 | `.get(k, 0)` finds the entry of `k` or of its equal twin, and gives the default when neither is a key |
| BackendProxy.SetItem | ml-services/services/backend_proxy.py:513 | `d[k] = v` sets the entry of `k`, keeping a twin key already present instead of adding a second key, and changes no other entry |
| BackendProxy.AllocationStep | ml-services/services/backend_proxy.py:505-513 | the allocation code raises when the portfolio is not a dict, and changes nothing but the investment allocation |
| BackendProxy.NetWorthStep | ml-services/services/backend_proxy.py:464-466 | the net-worth step raises exactly on a truthy non-dict portfolio, changes nothing for a falsy one, and changes only the net worth |
| BackendProxy.TotalsStep | ml-services/services/backend_proxy.py:468-513 | the inner `try` changes neither the net worth, the income, the savings rate, the debt ratio nor the budgets, and leaves the allocation alone when the totals succeed |
| BackendProxy.Entry | ml-services/services/backend_proxy.py:522-534 | type and amount come from a truthy dict `transactionInfo` when there is one, otherwise from the transaction itself |
| BackendProxy.Contribution | ml-services/services/backend_proxy.py:520-538 | a transaction adds a non-negative amount to income and to expenses, and nothing when it is not a dict |
| BackendProxy.ContributionCases | ml-services/services/backend_proxy.py:535-538 | income takes the positive part of an income amount, expenses the absolute value of an expense amount, any other type neither |
| BackendProxy.Flows | ml-services/services/backend_proxy.py:518-538 | the accumulated income and expenses are never negative |
| BackendProxy.SavingsRate | ml-services/services/backend_proxy.py:543-544 | the savings rate is never negative, is the saved share of income in percent when expenses do not exceed income, and 0 when they do |
| BackendProxy.TransactionStep | ml-services/services/backend_proxy.py:515-544 | the transaction block changes only income, expenses and the savings rate, and sets a rate only when income is positive, never negative |
| BackendProxy.Utilization | ml-services/services/backend_proxy.py:548-554 | a budget loop that does not raise has met no budget that raises, and its dict never holds two keys for one entry |
| BackendProxy.UtilizationMergesTwins | ml-services/services/backend_proxy.py:548-554 | budgets of the categories `False` and `0` share one entry, kept under `False` and holding the later budget's utilisation |
| BackendProxy.UtilizationEntries | ml-services/services/backend_proxy.py:548-554 | every utilisation entry comes from a budget of that category with a positive limit and is its `spent / limit * 100` |
| BackendProxy.UtilizationComplete | ml-services/services/backend_proxy.py:548-554 | when the budget loop completes, every budget with a positive limit has an entry for its category or its equal twin |
| BackendProxy.BudgetStep | ml-services/services/backend_proxy.py:546-554 | the budget block changes nothing but the budget utilisation |
| BackendProxy.AnalyticsOf | ml-services/services/backend_proxy.py:448-559 | the debt-to-income ratio stays 0, and the savings rate is never negative and is set only when income is positive |
| BackendProxy.NetWorthKept | ml-services/services/backend_proxy.py:462-559 | the later blocks never change the net worth the first block read |
| BackendProxy.AllocationOnlyAfterAggregationError | ml-services/services/backend_proxy.py:502-513 | the investment allocation stays empty whenever the account, asset and debt aggregation succeeds |
| BackendProxy.BudgetEntriesHavePositiveLimits | ml-services/services/backend_proxy.py:546-554 | every category in the analytics' budget utilisation comes from a dict budget with a positive limit and holds its utilisation |
| BackendProxy.PositiveLimitsHaveEntries | ml-services/services/backend_proxy.py:546-554 | when no block raises, every budget with a positive limit has an entry in the analytics, under its category or its equal twin |
| BackendProxy.AggregatedTotals | ml-services/services/backend_proxy.py:468-501 | when the aggregation succeeds, the assets total is the account balances plus the asset values over dict entries, and the liabilities the debt balances |
| BackendProxy.OtherTypesIgnored | ml-services/services/backend_proxy.py:535-538 | a transaction of any type but income or expense changes neither income nor expenses |
| BackendProxy.Accumulate | ml-services/services/backend_proxy.py:473-498 | the accumulator loop computes the left-to-right total |
| BackendProxy.SumHoldings | ml-services/services/backend_proxy.py:507 | the holdings sum exists exactly when every holding is a dict with a numeric value, and is then their total |
| BackendProxy.Allocate | ml-services/services/backend_proxy.py:509-513 | the allocation loop computes the specified allocation, stopping at the first unhashable type |
| BackendProxy.AllocationNext | ml-services/services/backend_proxy.py:509-513 | each holding after a non-raising prefix either raises or adds its percentage share to its type |
| BackendProxy.AllocationStops | ml-services/services/backend_proxy.py:509-513 | once the allocation raises, later holdings change nothing |
| BackendProxy.Tally | ml-services/services/backend_proxy.py:518-538 | the transaction loop computes the specified income and expenses |
| BackendProxy.Utilize | ml-services/services/backend_proxy.py:548-554 | the budget loop computes the specified utilisation, stopping at the first budget that raises |
| BackendProxy.UtilizationNext | ml-services/services/backend_proxy.py:548-554 | each budget after a non-raising prefix either raises, overwrites its category's entry when its limit is positive, or is skipped |
| BackendProxy.UtilizationStops | ml-services/services/backend_proxy.py:548-554 | once the budget loop raises, later budgets change nothing |
| BackendProxy.NetWorthBlock | ml-services/services/backend_proxy.py:464-466 | the net-worth block computes the net-worth step |
| BackendProxy.AllocationBlock | ml-services/services/backend_proxy.py:505-513 | the allocation code computes the allocation step |
| BackendProxy.TotalsBlock | ml-services/services/backend_proxy.py:468-513 | the inner `try` computes the totals step |
| BackendProxy.TransactionBlock | ml-services/services/backend_proxy.py:515-544 | the transaction block computes the transaction step |
| BackendProxy.BudgetBlock | ml-services/services/backend_proxy.py:546-554 | the budget block computes the budget step |
| BackendProxy.CalculateAnalytics | ml-services/services/backend_proxy.py:448-559 | `_calculate_analytics` returns the analytics as far as the blocks got before one raised |
| BackendProxy.AnalyticsIgnoresDerived | ml-services/services/backend_proxy.py:448-559 | the analytics depend only on the fetched records, never on earlier analytics or the mirror keys |
| BackendProxy.TotalsIgnoreDerived | ml-services/services/backend_proxy.py:468-513 | the totals step reads only the fetched records |
| BackendProxy.TransactionsIgnoreDerived | ml-services/services/backend_proxy.py:515-544 | the transaction step reads only the fetched records |
| BackendProxy.Holding | ml-services/services/backend_proxy.py:89-93 | a synthesised holding is a dict of symbol, type and current value, read back as that type and value |
| BackendProxy.SynthesisValue | ml-services/services/backend_proxy.py:83-87 | an investment's value, when it reads without raising, is a number |
| BackendProxy.Synthesis | ml-services/services/backend_proxy.py:80-93 | a completed synthesis has one summable holding per investment, and its total is the sum of their values |
| BackendProxy.SynthesisHolding | ml-services/services/backend_proxy.py:88-93 | a synthesised holding carries the investment's value |
| BackendProxy.SynthesisSucceeds | ml-services/services/backend_proxy.py:82-93 | the synthesis completes exactly when every investment is a dict whose value reads |
| BackendProxy.HoldingsSnoc | ml-services/services/backend_proxy.py:87-93 | appending a readable holding keeps the list summable and adds its value to the total |
| BackendProxy.EnrichmentHolding | ml-services/services/backend_proxy.py:109-123 | an enriched holding carries the `float` of the investment's market or current value, 0 when absent or unparsable |
| BackendProxy.EnrichmentTotals | ml-services/services/backend_proxy.py:106-123 | enrichment makes one summable holding per dict investment, and its total is the sum of their values |
| BackendProxy.Recomputed | ml-services/services/backend_proxy.py:98-130 | recomputing stores the analytics of the data and changes nothing else |
| BackendProxy.WithPortfolio | ml-services/services/backend_proxy.py:78-133 | the portfolio block changes only the portfolio and the analytics, and either leaves the data as it was or leaves analytics matching its records |
| BackendProxy.SynthesizedPortfolio | ml-services/services/backend_proxy.py:79-97 | with no portfolio and a non-empty list of investments, the portfolio becomes one holding per investment with their sum as total value |
| BackendProxy.SynthesizedNetWorth | ml-services/services/backend_proxy.py:94-99 | the synthesised total value becomes the net worth of the recomputed analytics |
| BackendProxy.DictNetWorth | ml-services/services/backend_proxy.py:464-466 | a truthy dict portfolio's `totalValue`, 0 when absent, is the net worth |
| BackendProxy.SynthesisAbandoned | ml-services/services/backend_proxy.py:78-133 | one investment that is not a dict or whose value raises abandons the synthesis and leaves the data unchanged |
| BackendProxy.EnrichedPortfolio | ml-services/services/backend_proxy.py:101-130 | a dict portfolio without holdings gets one holding per dict investment; its total value becomes theirs only when it was None or 0; the analytics are recomputed |
| BackendProxy.Synthesize | ml-services/services/backend_proxy.py:80-93 | the synthesis loop computes the specified synthesis, None when an investment raises |
| BackendProxy.Enrich | ml-services/services/backend_proxy.py:106-123 | the enrichment loop computes the specified holdings and total, skipping non-dict investments |
| BackendProxy.FillPortfolio | ml-services/services/backend_proxy.py:78-133 | the portfolio block computes the specified result |
| BackendProxy.SynthesisNext | ml-services/services/backend_proxy.py:82-93 | each readable dict investment after a completed prefix adds its value to the total and appends its holding |
| BackendProxy.SynthesisFails | ml-services/services/backend_proxy.py:82-87 | any investment that is not a dict, or whose value raises, makes the synthesis fail |
| BackendProxy.Store | ml-services/services/backend_proxy.py:61-71 | a failed request keeps the key's default; a dict profile is normalised; every other result is stored under its own key and nothing else changes |
| BackendProxy.Collected | ml-services/services/backend_proxy.py:29-71 | after the results are stored, each key holds its request's result or its initial default, and no analytics or mirror keys are set yet |
| BackendProxy.GetUserFinancialData | ml-services/services/backend_proxy.py:21-145 | a client failure returns the initial dict; otherwise the results are stored, the portfolio filled in, the analytics match the final records, and the legacy keys mirror the profile and transactions |
| BackendProxy.Consistent | ml-services/services/backend_proxy.py:75-138 | the analytics stay those of the final records through the portfolio block and the mirroring |
| FinancialDataService.Amount | ml-services/services/financial_data_service.py:56-57 | `t["amount"]` can be read and compared exactly when the transaction is a dict holding a numeric (or boolean) amount, and then it is that amount |
| FinancialDataService.Amounts | ml-services/services/financial_data_service.py:56-57 | the amounts are available exactly when every transaction's amount can be read, and are then those amounts in order |
| FinancialDataService.FlowsNonNegative | ml-services/services/financial_data_service.py:56-57 | neither the monthly income nor the monthly expenses is ever negative |
| FinancialDataService.NetFlowIsSum | ml-services/services/financial_data_service.py:56-57 | income minus expenses equals the sum of all amounts: each amount counts on exactly one side, or on none |
| FinancialDataService.ZeroIgnored | ml-services/services/financial_data_service.py:56-57 | a zero amount changes neither the income nor the expenses |
| FinancialDataService.OnlyIncome | ml-services/services/financial_data_service.py:56-57 | with no negative amount the expenses are zero and the income is the total |
| FinancialDataService.CashFlow | ml-services/services/financial_data_service.py:56-59 | the sums exist exactly when every amount can be read; both are non-negative and their difference is the net of all amounts |
| FinancialDataService.FetchedContext | ml-services/services/financial_data_service.py:16-81 | the fetched context's monthly income and expenses are never negative |
| FinancialDataService.GetUserFinancialContext | ml-services/services/financial_data_service.py:16-81 | the requests made one after another, each 200 body stored as it arrives and the first exception ending them, give exactly `FetchedContext` |
| FinancialDataService.NonDictPortfolioStops | ml-services/services/financial_data_service.py:40-44 | a 200 portfolio body that is not a dict is stored, but `.get("totalValue", 0)` raises: the net worth, the income, the expenses and every later record keep their initial values |
| FinancialDataService.FetchedNetWorth | ml-services/services/financial_data_service.py:40-44 | once the profile and portfolio requests pass, the net worth is a dict portfolio's `totalValue` (default 0), and 0 without a portfolio |
| FinancialDataService.FetchedFlows | ml-services/services/financial_data_service.py:46-59 | a fetched transaction list is stored; its sums become the income and expenses when every amount reads, and otherwise both stay 0 and the budgets, goals and investments are never fetched |
| FinancialDataService.FailedProfileRequest | ml-services/services/financial_data_service.py:32-36 | a first request that raises leaves the whole initial context |
| FinancialDataService.FetchedRecords | ml-services/services/financial_data_service.py:16-81 | when every request answers 200 with a readable body, each body is stored unchanged beside the dict portfolio's `totalValue` and the two sums |
| FinancialDataService.NullTotalValueRaises | ml-services/services/financial_data_service.py:44 | a backend portfolio with a null `totalValue` is fetched as a null net worth, on which the insight rules raise |
| FinancialDataService.GoalProgress | ml-services/services/financial_data_service.py:136 | a goal without a positive target shows zero progress; otherwise progress times target is current times 100 |
| FinancialDataService.GoalProgressBounds | ml-services/services/financial_data_service.py:136 | a goal part-way to a positive target is between 0 and 100 percent complete, and exactly 100 when reached |
| FinancialDataService.GoalProgressMonotone | ml-services/services/financial_data_service.py:136 | saving more toward the same target never lowers the progress |
| FinancialDataService.NetWorthInsight | ml-services/services/financial_data_service.py:165-171 | strong above 100000, building wealth above 10000 up to 100000, the emergency-fund advice otherwise, the three cases exclusive and carrying the net worth they format |
| FinancialDataService.CashFlowInsight | ml-services/services/financial_data_service.py:174-181 | a positive surplus exactly when income exceeds expenses, otherwise a non-negative deficit, each the difference the message formats |
| FinancialDataService.AllocationInsight | ml-services/services/financial_data_service.py:184-192 | the diversification insight is only ever the stock-heavy or stock-light one, and a missing or empty portfolio draws none |
| FinancialDataService.AllocationThresholds | ml-services/services/financial_data_service.py:186-192 | stock-heavy exactly when stocks exceed four fifths of stocks, bonds and cash; stock-light exactly when they are under three tenths |
| FinancialDataService.PercentCompare | ml-services/services/financial_data_service.py:188-191 | a percentage of a positive total compares with a threshold as the cross-multiplied amounts do, in both directions |
| FinancialDataService.EmptyAllocationSilent | ml-services/services/financial_data_service.py:186-187 | a portfolio whose stocks, bonds and cash total zero or less draws no diversification insight |
| FinancialDataService.InsightsShape | ml-services/services/financial_data_service.py:160-194 | always a net-worth insight, then a cash-flow insight, then at most one diversification insight, which is there exactly when the allocation calls for it |
| FinancialDataService.Figure | ml-services/services/financial_data_service.py:165-175 | a missing figure is 0, a number is itself, and anything but a number or boolean is unreadable |
| FinancialDataService.ReadContext | ml-services/services/financial_data_service.py:165-188 | the rules raise, in their own order, on a non-numeric net worth, income or expenses, on a truthy portfolio that is not a dict, and on non-numeric stocks, bonds or cash; otherwise they read those figures, with a portfolio exactly when the context's is truthy |
| FinancialDataService.ReadContextOf | ml-services/services/financial_data_service.py:43-59 | a context of plain numbers and a dict portfolio is read back as exactly those figures |
| FinancialDataService.NullNetWorthRaises | ml-services/services/financial_data_service.py:44 | a null `totalValue` stored as the net worth makes the insights raise |
| FinancialDataService.ListPortfolioRaises | ml-services/services/financial_data_service.py:184-186 | a non-empty list as portfolio makes the insights raise on `.get` |
| FinancialDataService.GetFinancialInsights | ml-services/services/financial_data_service.py:160-194 | the error `ReadContext` names when the context cannot be read; otherwise exactly the net-worth, cash-flow and optional diversification insights, in that order |
| Recommendations.AuthToken | ml-services/routes/recommendations.py:168-170 | no header or an empty one gives no token; a header not starting with "Bearer " is passed on unchanged |
| Recommendations.BearerStripped | ml-services/routes/recommendations.py:170 | a header "Bearer <token>" yields exactly the token when the token does not itself contain "Bearer " |
| Recommendations.BuildUserContext | ml-services/routes/recommendations.py:41-49 | no token gives the empty context; a token gives the backend proxy's financial data, whose analytics and profile are filled in |
| Recommendations.DesiredCount | ml-services/routes/recommendations.py:172 | the count is clamped to 1..5: a request in range is kept, a smaller one becomes 1, a larger one 5 |
| Recommendations.BracketSpan | ml-services/routes/recommendations.py:156-159 | when a '[' precedes a later ']' the text is cut from the first '[' to the last ']', brackets included; otherwise it is left whole |
| Recommendations.ParseRecommendations | ml-services/routes/recommendations.py:152-163 | parsing succeeds iff the bracketed text decodes to a JSON array, whose items are returned; any other decoded value raises "Model did not return a JSON array" |
| Recommendations.ParsedOrEmpty | ml-services/routes/recommendations.py:179-187 | a reply that fails to parse leaves an empty list; otherwise the parsed items |
| Recommendations.Take | ml-services/routes/recommendations.py:191-197 | slicing `[:n]` gives a prefix of at most n items, the whole list when it is short enough |
| Recommendations.Strs | ml-services/routes/recommendations.py:196-197 | each reasoning and action entry is the `str` of the parsed value at the same position |
| Recommendations.PriorityName | ml-services/routes/recommendations.py:25 | a valid priority is one of low, medium, high or urgent |
| Recommendations.OptionalStrValue | ml-services/routes/recommendations.py:28 | an optional string field is absent iff the item holds null, and otherwise holds that string |
| Recommendations.HorizonValue | ml-services/routes/recommendations.py:30 | the time horizon is absent iff null, and otherwise short, medium or long |
| Recommendations.Build | ml-services/routes/recommendations.py:193-205 | every built recommendation keeps the limits: title at most 200 characters, description at most 1200, at most 8 reasons and 8 actions, the request's scope |
| Recommendations.BuildFields | ml-services/routes/recommendations.py:194-199 | the priority is one of the four; a truthy title is the item's own (truncated); the confidence is the item's |
| Recommendations.Coerce | ml-services/routes/recommendations.py:191-208 | an item is kept iff it is a dict whose fields validate, and what is kept is within the limits |
| Recommendations.Coerced | ml-services/routes/recommendations.py:191-208 | never more recommendations than parsed items |
| Recommendations.CoercedNext | ml-services/routes/recommendations.py:191-208 | the coercion loop's step: the last item is appended exactly when it builds |
| Recommendations.CoercedBounded | ml-services/routes/recommendations.py:193-206 | every kept recommendation keeps the limits |
| Recommendations.CoercedAll | ml-services/routes/recommendations.py:191-208 | when every item builds, every item is kept, in order |
| Recommendations.CoerceAll | ml-services/routes/recommendations.py:190-208 | the loop keeps exactly the building items among the first `desired` parsed ones |
| Recommendations.Defaults | ml-services/routes/recommendations.py:211-224 | three default recommendations per scope, each within the limits |
| Recommendations.TopUp | ml-services/routes/recommendations.py:210-228 | enough items are left alone; too few are followed by the defaults in order until `desired` is reached or the defaults run out |
| Recommendations.RecommendedCount | ml-services/routes/recommendations.py:172-228 | the route always returns at least one recommendation and never more than asked for |
| Recommendations.NothingUsable | ml-services/routes/recommendations.py:185-228 | a reply that does not parse yields the first defaults of the scope |
| Recommendations.AppendBounded | ml-services/routes/recommendations.py:225-228 | appending within-limit recommendations to within-limit recommendations stays within the limits |
| Recommendations.DefaultsBounded | ml-services/routes/recommendations.py:211-228 | the defaults offered keep the limits |
| Recommendations.RecommendedBounded | ml-services/routes/recommendations.py:189-228 | every returned recommendation, kept or default, keeps the limits |
| Recommendations.Recommend | ml-services/routes/recommendations.py:179-228 | parsing, the coercion loop and the top-up loop together give `Recommended` |
| Recommendations.GenerateRecommendations | ml-services/routes/recommendations.py:165-237 | a failure before the reply is an HTTP 500 with its message; otherwise the response carries `Recommended` for the clamped count, the request's model and the time |
| AiChat.ChatConfidence | ml-services/routes/ai_chat.py:54-55 | 0.85 exactly for answers longer than 50 characters, 0.7 exactly for the others |
| AiChat.ChatConfidenceMonotone | ml-services/routes/ai_chat.py:55 | lengthening an answer never lowers its confidence |
| AiChat.Sources | ml-services/routes/ai_chat.py:57-63 | the model and the knowledge base are always cited first; "portfolio_data" and "market_data" are cited iff a non-empty context carries that key, in that order, and nothing else is cited |
| AiChat.ChatWithAi | ml-services/routes/ai_chat.py:47-72 | an Ollama error becomes the HTTP 500 detail; otherwise the answer is returned with its length-based confidence and exactly the sources `Sources` cites |
| AiChat.Classify | ml-services/routes/ai_chat.py:87-89 | the result is always one of the three labels; a label is kept and anything else becomes "neutral" |
| AiChat.NormalizeSentiment | ml-services/routes/ai_chat.py:85-89 | the stripped, lower-cased answer is kept when it is a label, "neutral" otherwise |
| AiChat.SentimentIgnoresCase | ml-services/routes/ai_chat.py:85 | the letter case of the model's answer does not change the label |
| AiChat.LowerWordKept | ml-services/routes/ai_chat.py:85 | a word of lower-case letters survives stripping and lower-casing unchanged |
| AiChat.LowerCaseKept | ml-services/routes/ai_chat.py:85 | lower-casing leaves lower-case letters alone |
| AiChat.LabelKept | ml-services/routes/ai_chat.py:85-89 | a clean label answer is reported as that label |
| AiChat.SentimentConfidence | ml-services/routes/ai_chat.py:91 | 0.8 exactly for positive or negative, 0.6 exactly for neutral |
| AiChat.AnalyzeChatSentiment | ml-services/routes/ai_chat.py:74-99 | an Ollama error becomes the HTTP 500 detail; otherwise one of the three labels with its confidence and the completion message |
| AiChat.ModelEntry | ml-services/routes/ai_chat.py:115-122 | a line lists a model iff it has at least two fields; name and id are single words |
| AiChat.WordsOfBlank | ml-services/routes/ai_chat.py:115-116 | a blank line has no fields |
| AiChat.ConsElements | ml-services/routes/ai_chat.py:116 | the fields after the first are the remaining fields, in order |
| AiChat.TwoWords | ml-services/routes/ai_chat.py:116 | two space-separated words split back into those words |
| AiChat.ThreeWords | ml-services/routes/ai_chat.py:116 | three space-separated words split back into those words |
| AiChat.EntryOfThreeFields | ml-services/routes/ai_chat.py:118-122 | a line "name id size" lists exactly that model |
| AiChat.EntryOfTwoFields | ml-services/routes/ai_chat.py:118-122 | a line "name id" lists that model with size "Unknown" |
| AiChat.ModelsOf | ml-services/routes/ai_chat.py:112-122 | no more models than lines |
| AiChat.ModelsOfNext | ml-services/routes/ai_chat.py:114-122 | each line adds its own entry, if it has one, after the earlier ones |
| AiChat.ModelsAreWords | ml-services/routes/ai_chat.py:116-121 | every listed model has a one-word name and id |
| AiChat.ModelsOfAppend | ml-services/routes/ai_chat.py:114-122 | the listing is read line by line: two runs of lines give their entries in order |
| AiChat.ParseModelList | ml-services/routes/ai_chat.py:112-122 | the loop builds exactly the entries of the lines after the header |
| AiChat.ListAvailableModels | ml-services/routes/ai_chat.py:101-128 | a failed start or a non-zero exit is an error (with stderr); success lists the models of the lines after the header |
| PyText.TrimStart | ml-services/routes/ai_chat.py:85 | the left-stripped string is a suffix that starts with no whitespace, and only whitespace was removed |
| PyText.TrimEnd | ml-services/routes/ai_chat.py:85 | the right-stripped string is a prefix that ends with no whitespace, and only whitespace was removed |
| PyText.Strip | ml-services/routes/ai_chat.py:85 | `str.strip()` never lengthens a string, and a non-empty result neither starts nor ends with whitespace |
| PyText.StripAllSpace | ml-services/routes/ai_chat.py:115 | a line of whitespace only strips to the empty (falsy) string |
| PyText.StripIdempotent | ml-services/routes/ai_chat.py:113-115 | stripping twice is stripping once |
| PyText.StripUnpadded | ml-services/routes/ai_chat.py:115 | a string without surrounding whitespace strips to itself |
| PyText.StripNonEmpty | ml-services/routes/ai_chat.py:115 | a string with any non-whitespace character strips to a non-empty (truthy) string |
| PyText.Lower | ml-services/routes/ai_chat.py:85 | `str.lower()` keeps the length and lowers each character |
| PyText.LowerChar | ml-services/routes/ai_chat.py:85 | an upper-case ASCII letter becomes its lower-case letter; any other character is kept |
| PyText.Upper | ml-services/services/sentiment_analyzer.py:213 | `str.upper()` keeps the length and raises each character |
| PyText.UpperChar | ml-services/services/sentiment_analyzer.py:213 | a lower-case ASCII letter becomes its upper-case letter; any other character is kept |
| PyText.TrimStartUpper | ml-services/routes/ai_chat.py:85 | left-stripping commutes with upper-casing |
| PyText.TrimEndUpper | ml-services/routes/ai_chat.py:85 | right-stripping commutes with upper-casing |
| PyText.StripUpper | ml-services/routes/ai_chat.py:85 | stripping commutes with upper-casing |
| PyText.LowerUpper | ml-services/routes/ai_chat.py:85 | lower-casing an upper-cased string is lower-casing the original |
| PyText.Find | ml-services/routes/recommendations.py:156 | `str.find` is -1 exactly when the character is absent, and otherwise the index of its first occurrence |
| PyText.RFind | ml-services/routes/recommendations.py:157 | `str.rfind` is -1 exactly when the character is absent, and otherwise the index of its last occurrence |
| PyText.SplitOn | ml-services/routes/ai_chat.py:113 | `str.split(sep)` yields at least one part, and no part contains the separator |
| PyText.JoinSplitOn | ml-services/routes/ai_chat.py:113 | joining the parts with the separator gives back the string |
| PyText.WordLength | ml-services/routes/ai_chat.py:116 | a word's length: the prefix up to the first whitespace character |
| PyText.Words | ml-services/routes/ai_chat.py:116 | `str.split()` yields only non-empty words without whitespace |
| PyText.WordsOfWord | ml-services/routes/ai_chat.py:116 | a string without whitespace splits into itself, or into nothing when empty |
| PyText.WordsCons | ml-services/routes/ai_chat.py:116 | a word followed by a space and the rest splits into that word and the words of the rest |
| PyText.ReplaceAbsent | ml-services/routes/recommendations.py:170 | `str.replace` of a pattern that does not occur leaves the string unchanged |
| PyJson.GetOr | ml-services/services/backend_proxy.py:466 | `dict.get(key, default)` is the stored value when the key is present, and the default otherwise |
| PyJson.Or | ml-services/services/backend_proxy.py:176 | `a or b` is `a` when it is truthy, and `b` otherwise |
| PyJson.ToFloat | ml-services/routes/recommendations.py:199 | `float(x)` of a number is that number, of a bool 1 or 0, and raises (None) for None, a list or a dict |
| PyJson.ExponentForm | ml-services/routes/recommendations.py:199 | a float literal with an `e`/`E` exponent is its number scaled by that power of ten |
| PyJson.NoExponentForm | ml-services/routes/recommendations.py:199 | a literal without an exponent is read as the plain decimal number |
| PyJson.ExponentLiteral | ml-services/services/backend_proxy.py:478 | `float("1e3")` is 1000.0, so a balance written with an exponent adds its full value |
| PyJson.DoubleUnderscoreRefused | ml-services/routes/recommendations.py:199 | `float("1__0")` raises: an underscore may only stand between two digits |
| PyDict.ZipMap | ml-services/services/portfolio_optimizer.py:107 | `dict(zip(keys, values))` has only the given keys, and every key that has a value |
| PyDict.ZipMapValues | ml-services/services/sentiment_analyzer.py:206 | with distinct keys each key maps to the value at its own position |

## Left out

- HTTP and market data are inputs. This covers `_fetch_history_backend_sync`, `_safe_download`, the yfinance download, the backend proxy's `_get_*` endpoint helpers and the requests of `get_user_financial_context`. A fetched history, a price frame or a decoded JSON record is given to the model.
- Library numerics are function parameters whose behaviour is not modelled. This covers the SLSQP solver, `np.random` draws, `np.percentile` and `sqrt`. Their results are taken as they come.
- sklearn is an opaque learner. The scaler, the random forest, the row selection of `train_test_split` and `accuracy_score` are left out; the fitted state is recorded as the samples used, since the seeds are fixed. The split sizes and the classes are modelled.
- Floating-point rounding is left out; reals are exact. A pandas division by zero, which gives an infinity, is treated as undefined (`None`). The one exception is RSI: a zero average loss with a positive average gain gives 100, as pandas' infinite ratio gives in the code's formula.
- `asyncio.gather` and the async plumbing are left out. The nine requests' results (a value, or `None` for a raised exception) are given in task order.
- The Ollama subprocess calls are inputs. This covers `call_ollama` and `call_ollama_prompt`, their timeouts and their error wrapping. The model receives their reply or their error message.
- Prompt text and logging are left out: `build_prompt`, both `format_financial_context_for_llm` functions and every log line. They only build text for the language model or the log.
- `json.loads` is the parameter `loads`. The request models' pydantic coercion is approximated: strings, numbers, booleans and null are checked by kind.
- `float` of a string accepts the finite decimal literals, with sign, exponent and single underscores between digits. The strings "inf", "infinity" and "nan" (any case), which `float` turns into an infinity or NaN, are treated as unparsable, because a `real` holds neither; an account balance "inf" thus adds 0 where the source adds an infinity. Non-ASCII decimal digits, which `float` also accepts, are refused in the same way.
- `str(...)` is exact only for strings, `None` and booleans. A number or container gets a placeholder rendering, because no decision depends on its digits.
- Iterating a dict yields its keys. The model stands them in as empty strings, one per key, because a JSON object is a `map` here and has no key order. For the analytics loops this loses nothing: they only ask whether an element is a dict, and a key never is. For a dict `reasoning` or `actionItems` in a recommendation it loses the keys' text and order: for `{"a": 1}` the source keeps `["a"]` and the model `[""]`; only the count of entries is kept.
- `str.lower` and `str.upper` are modelled on the ASCII letters only. That suffices here: the labels they are compared with and the symbols they are applied to are ASCII.
- The exceptions `get_financial_insights` raises on an unreadable context are named by their kind, `TypeError` or `AttributeError`; Python's message text is left out.
- `datetime.utcnow()` is the parameter `now`, and the timestamp is carried as given.
- `predict_sentiment` has a fallback for a model without `predict_proba`. It is left out because a random forest always has that method.
- The module-level singletons (`analyzer`, `backend_proxy`) are left out. The model works on one object that the caller constructs.
- The `except` fallback of `_normalize_profile_response` is left out. It is unreachable for the dict records the code passes in, because nothing in the `try` raises on a dict.
- `get_user_financial_context` is modelled on the backend's replies, not on the HTTP client: each request is given as raised, or as a status with a body that `.json()` decodes or fails on. The user id, the URL and the headers are left out. The context is a record with one field per key, and `AsDict` turns it into the dict the insight rules read.
- PortfolioOptimizer.PortfolioOptimizer.EfficientFrontier: takes the seeded draws as given. For a non-empty symbol list it requires each draw to lie in [0, 1) and not to be all zeros; an empty list needs no draws, since it ends in the missing-prices error. The seeded generator never gives an all-zero draw; one would make NaN weights.
- BackendProxy.NormalizeProfile: its own ensures says only that the result is a dict. The field-by-field content is stated by `ProfileKeys`, `ProfileName`, `ProfileRisk` and `ProfileExperience`.
