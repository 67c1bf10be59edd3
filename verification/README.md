# Next-month grocery price forecasting, modelled in Dafny

The grocery price service forecasts a product's price for the month after
its latest recorded month, and stores each forecast as a grocery item. Two
pieces of code do this work:

- `PricePrediction` holds three estimators. Each maps a price history to
  one next-period price:
  - an exponential moving average (EMA), seeded with the first price, whose
    weight is `smoothingFactor / (n + 1)`;
  - ordinary least squares over the observation indices `0 .. n-1`,
    extrapolated to index `n`. It falls back to the last price when the
    denominator is nearly zero;
  - a polynomial fit over the normalised indices `index / (n - 1)`, with the
    degree clamped to `n - 1`, evaluated at `1 + 1/(n - 1)`. It falls back
    to the last price when the fit throws or when the value leaves
    `[0.5 * min, 2 * max]`.
- `PricePredictionHelper.PredictAndAddNextMonthPrice` runs them in order:
  1. it sorts the history by month and returns false on an empty history;
  2. it computes the month after the latest entry;
  3. it runs all three estimators before storing anything, and returns
     false if any of them raises;
  4. it hands every positive forecast to a storage sink, in the order EMA,
     linear regression, polynomial regression, under that estimator's label;
  5. it returns false at the first refusal from the sink, and true when
     every call was accepted.

The model works over exact reals (`real`). Its four modules are:

- `Records` (`records.dfy`) holds the calendar date of a `DateTime`, an
  integer key that orders dates, the price-table row `ProductPriceEntry` and
  the stored `GroceryItem`.
- `SeqMath` (`seq_math.dfy`) holds the LINQ aggregates `Last`, `Min`, `Max`
  and `Sum`.
- `PricePrediction` (`price_prediction.dfy`) holds the three estimators:
  - The EMA is a method with a loop, proved against the fold `EmaFrom`.
  - The two regressions are functions, because the source writes them as
    LINQ expressions with early returns.
  - Argument exceptions become `Err` values of a `Result`.
  - The external polynomial fit is a parameter of type `Fit`. That is an
    arbitrary function that returns either a coefficient sequence or `None`
    when it throws.
- `PricePredictionHelper` (`prediction_helper.dfy`) holds the orchestration:
  - The history provider becomes an input sequence.
  - The sink becomes a `PredictionSink` object. It logs every item it is
    given and answers from a queue of booleans; once the queue is used up it
    answers true.
  - The method `PredictAndAddNextMonthPrice` is proved against the
    specification function `Run`. The result, the calls the sink receives
    and the answers it uses up are exactly those of `Run`.
  - Lemmas characterise `Run` in closed form.

## Model

| member | source | states |
|---|---|---|
| Records.DateKeyIsLexicographic | grocery_api/Models/Math_Models/PredictAndAddNextMonthPriceHelper.cs:26 | the key used to order entries by `Month` compares dates by year, then month, then day (both directions) |
| Records.DateKeyOrdersMonths | grocery_api/Models/Math_Models/PredictAndAddNextMonthPriceHelper.cs:26 | a date not later than another lies in the same or an earlier calendar month |
| SeqMath.Min | grocery_api/Models/Math_Models/GroceryPricePrediction.cs:96 | `prices.Min()` is one of the prices and no price is below it |
| SeqMath.Max | grocery_api/Models/Math_Models/GroceryPricePrediction.cs:95 | `prices.Max()` is one of the prices and no price is above it |
| SeqMath.LastWithinRange | grocery_api/Models/Math_Models/GroceryPricePrediction.cs:95-101 | the last price lies between the minimum and the maximum |
| PricePrediction.Ema | grocery_api/Models/Math_Models/GroceryPricePrediction.cs:21-29 | on a one-element list the EMA is that element (the loop body never runs) |
| PricePrediction.PredictWithEMA | grocery_api/Models/Math_Models/GroceryPricePrediction.cs:16-30 | an empty list is rejected with an error; otherwise the loop returns the seeded left fold `ema = (p - ema) * m + ema` over the remaining prices, with `m = smoothingFactor / (n + 1)` |
| PricePrediction.EmaStepWithin | grocery_api/Models/Math_Models/GroceryPricePrediction.cs:26 | one update with a weight in `[0, 1]` stays between any bounds that hold the old average and the new price |
| PricePrediction.EmaFromWithin | grocery_api/Models/Math_Models/GroceryPricePrediction.cs:24-27 | folding prices that lie in `[lo, hi]` into an average in `[lo, hi]` keeps it there |
| PricePrediction.MultiplierInUnitInterval | grocery_api/Models/Math_Models/GroceryPricePrediction.cs:22 | a smoothing factor in `[0, n + 1]` gives a multiplier in `[0, 1]` |
| PricePrediction.DefaultMultiplierInUnitInterval | grocery_api/Models/Math_Models/GroceryPricePrediction.cs:16-22 | with the default factor 2 and `n >= 1` the multiplier `2 / (n + 1)` lies in `(0, 1]` |
| PricePrediction.EmaWithinPriceRange | grocery_api/Models/Math_Models/GroceryPricePrediction.cs:21-27 | with a smoothing factor in `[0, n + 1]` (the default included) the EMA lies between the minimum and the maximum price |
| PricePrediction.EmaFromConstant | grocery_api/Models/Math_Models/GroceryPricePrediction.cs:24-27 | folding copies of `c` into an average equal to `c` leaves `c` |
| PricePrediction.EmaOfConstantSeries | grocery_api/Models/Math_Models/GroceryPricePrediction.cs:21-29 | a constant history yields that constant, whatever the smoothing factor |
| PricePrediction.PredictWithLinearRegression | grocery_api/Models/Math_Models/GroceryPricePrediction.cs:40-59 | the estimator fails exactly when the list lengths differ or there are fewer than two points, and then with the "insufficient or mismatched data" error |
| PricePrediction.SumXClosedForm | grocery_api/Models/Math_Models/GroceryPricePrediction.cs:46 | the sum of the indices `0 .. n-1` is `n (n - 1) / 2` |
| PricePrediction.SumXXClosedForm | grocery_api/Models/Math_Models/GroceryPricePrediction.cs:49 | the sum of the squared indices is `n (n - 1) (2n - 1) / 6` |
| PricePrediction.DenominatorClosedForm | grocery_api/Models/Math_Models/GroceryPricePrediction.cs:51 | the denominator `n * sumXX - sumX^2` equals `n^2 (n^2 - 1) / 12`, whatever the prices |
| PricePrediction.IndexVarianceAtLeastOne | grocery_api/Models/Math_Models/GroceryPricePrediction.cs:51-52 | `n^2 (n^2 - 1) / 12 >= 1` once `n >= 2` |
| PricePrediction.DenominatorAtLeastOne | grocery_api/Models/Math_Models/GroceryPricePrediction.cs:51-52 | with at least two points the denominator is at least 1 |
| PricePrediction.DegenerateFallbackUnreachable | grocery_api/Models/Math_Models/GroceryPricePrediction.cs:52-53 | with at least two points the near-zero-denominator fallback to the last price is never taken |
| PricePrediction.LinearRegressionIgnoresMonthValues | grocery_api/Models/Math_Models/GroceryPricePrediction.cs:45-58 | two month lists of equal length give the same result: only their count is read |
| PricePrediction.LinearRegressionIsFittedValue | grocery_api/Models/Math_Models/GroceryPricePrediction.cs:51-58 | on valid input with a denominator of at least 1 the result is `slope * n + intercept` from the estimator's sums |
| PricePrediction.LineSumY | grocery_api/Models/Math_Models/GroceryPricePrediction.cs:47 | the price sum of a line `p[i] = a + b*i` is `n*a + b*sumX` |
| PricePrediction.LineSumXY | grocery_api/Models/Math_Models/GroceryPricePrediction.cs:48 | the index-weighted sum of a line is `a*sumX + b*sumXX` |
| PricePrediction.LineSums | grocery_api/Models/Math_Models/GroceryPricePrediction.cs:45-51 | the four sums of a line with at least two points satisfy the line-fit equations, with a denominator of at least 1 |
| PricePrediction.LineCoefficients | grocery_api/Models/Math_Models/GroceryPricePrediction.cs:55-58 | sums taken from `y = a + b*x` give slope `b`, intercept `a` and fitted value `a + b*n` |
| PricePrediction.LineFittedValue | grocery_api/Models/Math_Models/GroceryPricePrediction.cs:55-58 | from sums that fit a line, `slope * n + intercept` is the line's value at `n` |
| PricePrediction.LineSeriesFittedValue | grocery_api/Models/Math_Models/GroceryPricePrediction.cs:45-58 | for a linear history the fitted value at index `n`, computed from its sums, is `a + b*n` |
| PricePrediction.LinearRegressionExtrapolatesLine | grocery_api/Models/Math_Models/GroceryPricePrediction.cs:45-58 | if `prices[i] = a + b*i` exactly (at least two matched points), the estimator returns `a + b*n` |
| PricePrediction.LinearRegressionOfConstantSeries | grocery_api/Models/Math_Models/GroceryPricePrediction.cs:45-58 | a constant history of at least two points yields that constant |
| PricePrediction.ClampDegree | grocery_api/Models/Math_Models/GroceryPricePrediction.cs:80 | the degree used is at most `n - 1`, at most the requested degree, and equal to one of them |
| PricePrediction.NormalizedIndices | grocery_api/Models/Math_Models/GroceryPricePrediction.cs:76 | there is one x value per observation |
| PricePrediction.NormalizedIndicesShape | grocery_api/Models/Math_Models/GroceryPricePrediction.cs:76-92 | the x values run from 0 to 1 in equal steps of `1/(n - 1)`; the evaluation point `1 + 1/(n - 1)` is one more step, `n/(n - 1)` |
| PricePrediction.Reverse | grocery_api/Models/Math_Models/GroceryPricePrediction.cs:93 | the coefficient array in reverse order, element by element |
| PricePrediction.PowerSumCons | grocery_api/Models/Math_Models/GroceryPricePrediction.cs:93 | the weighted sum `sum c_i x^i` of `[c] + cs` is `c + x * (weighted sum of cs)` |
| PricePrediction.EvaluateAsWrittenIsHorner | grocery_api/Models/Math_Models/GroceryPricePrediction.cs:93 | reversing the coefficients and weighting position `i` by `x^i` is Horner's rule with the fit's first coefficient leading and its last one constant |
| PricePrediction.PredictWithPolynomialRegression | grocery_api/Models/Math_Models/GroceryPricePrediction.cs:70-111 | fails exactly on mismatched lengths or fewer than two points; otherwise the result is the last price or lies in `[0.5 * min, 2 * max]` |
| PricePrediction.PolynomialRegressionOutcome | grocery_api/Models/Math_Models/GroceryPricePrediction.cs:76-110 | on valid input the fit receives the normalised indices, the prices and the clamped degree. A throwing fit yields the last price. Otherwise the Horner value at `1 + 1/(n - 1)` is returned when it lies inside the bound, and the last price when it does not |
| PricePrediction.PolynomialRegressionPositive | grocery_api/Models/Math_Models/GroceryPricePrediction.cs:95-110 | on positive prices the polynomial estimate succeeds, is positive and lies in `[0.5 * min, 2 * max]` |
| PricePrediction.PolynomialAscendingCoefficientsExample | grocery_api/Models/Math_Models/GroceryPricePrediction.cs:92-101 | for prices 10, 12, 14 and a fit that answers `(10, 4, 0)`, the value is evaluated as 28.5; that exceeds `2 * 14`, so the estimator returns 14 |
| PricePredictionHelper.InsertByMonth | grocery_api/Models/Math_Models/PredictAndAddNextMonthPriceHelper.cs:25-27 | inserting into a history sorted by month keeps it sorted, adds exactly that entry and grows it by one |
| PricePredictionHelper.SortByMonth | grocery_api/Models/Math_Models/PredictAndAddNextMonthPriceHelper.cs:25-27 | `OrderBy(entry => entry.Month)` yields the same entries (as a multiset) in ascending date order |
| PricePredictionHelper.LastOfSortedIsLatest | grocery_api/Models/Math_Models/PredictAndAddNextMonthPriceHelper.cs:38 | the last entry of the sorted history has the latest month of all entries |
| PricePredictionHelper.NextMonth | grocery_api/Models/Math_Models/PredictAndAddNextMonthPriceHelper.cs:39 | the target (year, month) is the month directly after the given date's month; December rolls over into January of the next year, and the day is dropped |
| PricePredictionHelper.TargetFollowsLatest | grocery_api/Models/Math_Models/PredictAndAddNextMonthPriceHelper.cs:25-39 | the target month lies after every entry's month and directly after at least one of them |
| PricePredictionHelper.Forecasts | grocery_api/Models/Math_Models/PredictAndAddNextMonthPriceHelper.cs:41-53 | the predictions list exists exactly when there are at least two matched points (the error kind is given otherwise). It then holds three entries in order: the EMA with factor 2, then the linear and then the polynomial estimate of degree 2, each with its estimator |
| PricePredictionHelper.ForecastsOfEstimates | grocery_api/Models/Math_Models/PredictAndAddNextMonthPriceHelper.cs:41-47 | when all three estimators succeed, the list is exactly their three results in the order they are added |
| PricePredictionHelper.LabelRankOfLabel | grocery_api/Models/Math_Models/PredictAndAddNextMonthPriceHelper.cs:45-47 | the three labels "EMA", "Linear Regression" and "Polynomial Regression" are distinct strings, ranked in storage order |
| PricePredictionHelper.ForecastsInStorageOrder | grocery_api/Models/Math_Models/PredictAndAddNextMonthPriceHelper.cs:45-47 | the predictions list holds each estimator once, in the order EMA, linear, polynomial |
| PricePredictionHelper.AcceptedPrefix | grocery_api/Models/Math_Models/PredictAndAddNextMonthPriceHelper.cs:72-76 | the number of sink calls accepted before the first refusal: every call before it is accepted, and the call at it (if made) is refused |
| PricePredictionHelper.PositiveForecasts | grocery_api/Models/Math_Models/PredictAndAddNextMonthPriceHelper.cs:57-61 | the forecasts that are not skipped are positive and no more numerous than the list |
| PricePredictionHelper.PositiveForecastsSound | grocery_api/Models/Math_Models/PredictAndAddNextMonthPriceHelper.cs:57-61 | every kept forecast comes from the list |
| PricePredictionHelper.PositiveForecastsComplete | grocery_api/Models/Math_Models/PredictAndAddNextMonthPriceHelper.cs:57-61 | every positive forecast of the list is kept |
| PricePredictionHelper.PositiveKeepsStorageOrder | grocery_api/Models/Math_Models/PredictAndAddNextMonthPriceHelper.cs:55-61 | skipping non-positive forecasts keeps the others in their storage order |
| PricePredictionHelper.ItemsFor | grocery_api/Models/Math_Models/PredictAndAddNextMonthPriceHelper.cs:63-70 | one item per forecast, in order, each carrying the target year and month, the product name, the forecast price and the estimator's label |
| PricePredictionHelper.ItemsKeepStorageOrder | grocery_api/Models/Math_Models/PredictAndAddNextMonthPriceHelper.cs:63-70 | items built from forecasts in storage order carry their labels in that order |
| PricePredictionHelper.SendableCons | grocery_api/Models/Math_Models/PredictAndAddNextMonthPriceHelper.cs:55-70 | the items a run would send are built one forecast at a time: the first forecast adds its item exactly when it is positive |
| PricePredictionHelper.PersistAt | grocery_api/Models/Math_Models/PredictAndAddNextMonthPriceHelper.cs:55-79 | one pass of the foreach: skip a forecast at or below zero; otherwise send its item, and stop with false if the sink refuses it |
| PricePredictionHelper.PersistSkipStep | grocery_api/Models/Math_Models/PredictAndAddNextMonthPriceHelper.cs:57-61 | a skipped forecast uses no sink answer and leaves what remains to send unchanged |
| PricePredictionHelper.PersistSendStep | grocery_api/Models/Math_Models/PredictAndAddNextMonthPriceHelper.cs:63-76 | a positive forecast's item is sent; an acceptance continues with the next forecast, and a refusal ends the run with false after that item |
| PricePredictionHelper.PersistOutcome | grocery_api/Models/Math_Models/PredictAndAddNextMonthPriceHelper.cs:55-81 | the foreach in closed form: if the sink accepts every positive forecast's item, the result is true with all of them sent. Otherwise the result is false, with items sent up to and including the first refused one |
| PricePredictionHelper.PersistSentItems | grocery_api/Models/Math_Models/PredictAndAddNextMonthPriceHelper.cs:55-79 | the items sent are those of the first positive forecasts, for the target month, and keep the forecasts' storage order |
| PricePredictionHelper.RunWithForecasts | grocery_api/Models/Math_Models/PredictAndAddNextMonthPriceHelper.cs:38-55 | once the forecasts of the sorted history exist, the run is the foreach over them for the month after the latest entry |
| PricePredictionHelper.RunWithoutForecasts | grocery_api/Models/Math_Models/PredictAndAddNextMonthPriceHelper.cs:41-53 | if any estimator raises, the run returns false before the sink is called |
| PricePredictionHelper.RunRejectsShortHistory | grocery_api/Models/Math_Models/PredictAndAddNextMonthPriceHelper.cs:29-53 | an empty history, or a single entry (for which linear regression raises), returns false with no sink call |
| PricePredictionHelper.RunOutcomeCharacterized | grocery_api/Models/Math_Models/PredictAndAddNextMonthPriceHelper.cs:19-82 | the whole run in closed form: at most three items are planned. With fewer than two entries the result is false and nothing is sent. Otherwise the result is true with every planned item sent, or false with items sent up to and including the first refused one |
| PricePredictionHelper.RunSucceedsIff | grocery_api/Models/Math_Models/PredictAndAddNextMonthPriceHelper.cs:72-81 | the run returns true exactly when the history has at least two entries and the sink accepts every planned call |
| PricePredictionHelper.RunSentItems | grocery_api/Models/Math_Models/PredictAndAddNextMonthPriceHelper.cs:38-79 | every stored item names the product and the target month, and carries a positive forecast under its estimator's label. Labels come in the order EMA, linear, polynomial, each at most once |
| PricePredictionHelper.PredictionSink.constructor | grocery_api/Models/Math_Models/PredictAndAddNextMonthPriceHelper.cs:22 | a sink with an empty call log and the given queue of answers |
| PricePredictionHelper.PredictionSink.Add | grocery_api/Models/Math_Models/PredictAndAddNextMonthPriceHelper.cs:72 | `addToDatabase(item)` logs the item and returns the next queued answer (true once the queue is used up), consuming that answer |
| PricePredictionHelper.PredictAndAddNextMonthPrice | grocery_api/Models/Math_Models/PredictAndAddNextMonthPriceHelper.cs:19-82 | the method returns what `Run` returns; the sink receives exactly `Run`'s items, in order, and uses up one answer per item |
| PricePredictionHelper.StorePredictions | grocery_api/Models/Math_Models/PredictAndAddNextMonthPriceHelper.cs:55-81 | the foreach loop returns what `Persist` returns, hands the sink exactly its items, and uses up one answer per item |

## Left out

- The repository behind the history provider is not part of this model.
  That covers its SQL, the database, the HTTP controllers and the startup
  code. The history is taken as given: the entries the provider returns for
  the product. Their product name is not checked again.
- The `Guid` identifier of a `GroceryItem` is arbitrary and is left out of
  the record.
- Time of day. A `DateTime` is modelled by its year, month and day, and the
  ordering key compares those.
- IEEE-754 doubles and `decimal` are modelled as exact reals. That leaves
  out NaN and infinities passing the bound check, rounding, the overflow of
  the `(decimal)` casts, and the `1e-10` threshold beyond its value as a
  real.
- The `int` product `index * index` in the linear regression's sum of
  squares could overflow for very long histories. The model squares the
  index exactly.
- `DateTime.AddMonths` throws at year 9999. The model's years are
  unbounded.
- The `Console.WriteLine` logging.
- Null lists, which only the argument checks guard against.
- Exceptions thrown by the sink itself. The sink only answers true or false.
- The internals of the polynomial fitting library. The fit is an arbitrary
  function that may fail, and the model relies on no order of the
  coefficients it returns. The estimator reverses them and weights position
  `i` by `x^i`, which is Horner's rule with the first coefficient leading
  (`EvaluateAsWrittenIsHorner`). If the library reports coefficients
  constant-term first, that evaluates a different polynomial than the fit:
  `PolynomialAscendingCoefficientsExample` shows prices 10, 12, 14 giving 14
  instead of the trend value 16.
- SortByMonth: the contract states sortedness and the permutation, but not
  the stability of `OrderBy`. The insertion places each entry after every
  entry with an equal or earlier date, so entries with equal dates keep
  their original order, and with it the order of their prices. No lemma
  states this.
- PositiveForecasts: the contract states positivity and the length bound.
  That each kept forecast comes from the list, and that none is lost, are
  the separate lemmas `PositiveForecastsSound` and
  `PositiveForecastsComplete`.
- PredictAndAddNextMonthPrice: the three estimators run inside one `try`
  block, so the first that raises stops the others. The model runs all
  three and then checks for an error. The outcome is the same, since the
  estimators have no side effects that the model keeps (their logging is
  left out).
- PredictAndAddNextMonthPrice: the model carries each forecast's estimator
  as a value and writes its label into the item when the item is built.
- The `foreach` over the predictions is the separate method
  `StorePredictions`, called at the end of `PredictAndAddNextMonthPrice`.
