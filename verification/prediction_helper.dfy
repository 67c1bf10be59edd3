/** PricePredictionHelper.PredictAndAddNextMonthPrice: sort a product's price
    history by month, run the three estimators, and hand every positive
    forecast for the month after the latest entry to a storage sink, in a
    fixed order, stopping at the first refusal. The history provider is an
    input sequence; the sink is an object that records every call and
    answers from a queue of booleans. */
module PricePredictionHelper {
  import opened Records
  import opened SeqMath
  import opened PricePrediction

  /** A target (year, month): the first day of a month, day dropped. */
  datatype Period = Period(year: int, month: MonthOfYear)

  /** The three estimators, in the order their forecasts are stored. */
  datatype Estimator = ExponentialMovingAverage | LinearRegression | PolynomialRegression

  /** The model label stored with a forecast. */
  function Label(m: Estimator): string
  {
    match m
    case ExponentialMovingAverage => "EMA"
    case LinearRegression => "Linear Regression"
    case PolynomialRegression => "Polynomial Regression"
  }

  /** One entry of the predictions list: a price and the estimator that gave
      it (stored under that estimator's label). */
  datatype Forecast = Forecast(predictedPrice: real, model: Estimator)

  /** The outcome of a run: the returned flag and the items handed to the
      sink, in call order. */
  datatype RunOutcome = RunOutcome(ok: bool, sent: seq<GroceryItem>)

  // ---------------------------------------------------------------------
  // Ordering the history by month
  // ---------------------------------------------------------------------

  predicate SortedByMonth(s: seq<ProductPriceEntry>)
  {
    forall i, j :: 0 <= i < j < |s| ==> DateKey(s[i].month) <= DateKey(s[j].month)
  }

  /** Inserts e after every entry whose month is not later than e's, so that
      entries with equal months keep their order. */
  function InsertByMonth(e: ProductPriceEntry, s: seq<ProductPriceEntry>): (r: seq<ProductPriceEntry>)
    requires SortedByMonth(s)
    ensures SortedByMonth(r)
    ensures multiset(r) == multiset(s) + multiset{e}
    ensures |r| == |s| + 1
  {
    if s == [] then [e]
    else if DateKey(e.month) < DateKey(s[0].month) then
      SortedCons(e, s);
      [e] + s
    else
      SortedTail(s);
      var tail := InsertByMonth(e, s[1..]);
      KeepHead(e, s, tail);
      [s[0]] + tail
  }

  /** Putting the first entry of a sorted history back in front of the rest
      with e inserted gives a sorted history holding s and e. */
  lemma KeepHead(e: ProductPriceEntry, s: seq<ProductPriceEntry>, tail: seq<ProductPriceEntry>)
    requires s != [] && SortedByMonth(s)
    requires DateKey(s[0].month) <= DateKey(e.month)
    requires SortedByMonth(tail)
    requires multiset(tail) == multiset(s[1..]) + multiset{e}
    ensures SortedByMonth([s[0]] + tail)
    ensures multiset([s[0]] + tail) == multiset(s) + multiset{e}
  {
    HeadBelowInsert(e, s, tail);
    SortedCons(s[0], tail);
    assert s == [s[0]] + s[1..];
  }

  /** Dropping the first entry keeps a history sorted. */
  lemma SortedTail(s: seq<ProductPriceEntry>)
    requires s != [] && SortedByMonth(s)
    ensures SortedByMonth(s[1..])
  {
    forall i, j | 0 <= i < j < |s| - 1
      ensures DateKey(s[1..][i].month) <= DateKey(s[1..][j].month)
    {
      assert s[1..][i] == s[i + 1] && s[1..][j] == s[j + 1];
    }
  }

  /** An entry not later than every entry of a sorted history can lead it. */
  lemma SortedCons(x: ProductPriceEntry, t: seq<ProductPriceEntry>)
    requires SortedByMonth(t)
    requires forall j :: 0 <= j < |t| ==> DateKey(x.month) <= DateKey(t[j].month)
    ensures SortedByMonth([x] + t)
  {
    var r := [x] + t;
    forall i, j | 0 <= i < j < |r|
      ensures DateKey(r[i].month) <= DateKey(r[j].month)
    {
      assert r[j] == t[j - 1];
      if i > 0 {
        assert r[i] == t[i - 1];
      }
    }
  }

  /** The first entry of a sorted history, if not later than e, is not later
      than anything in the rest with e inserted. */
  lemma HeadBelowInsert(e: ProductPriceEntry, s: seq<ProductPriceEntry>, tail: seq<ProductPriceEntry>)
    requires s != [] && SortedByMonth(s)
    requires DateKey(s[0].month) <= DateKey(e.month)
    requires multiset(tail) == multiset(s[1..]) + multiset{e}
    ensures forall j :: 0 <= j < |tail| ==> DateKey(s[0].month) <= DateKey(tail[j].month)
  {
    forall j | 0 <= j < |tail|
      ensures DateKey(s[0].month) <= DateKey(tail[j].month)
    {
      assert tail[j] in multiset(tail);
      if tail[j] != e {
        assert tail[j] in multiset(s[1..]);
        var k :| 0 <= k < |s[1..]| && s[1..][k] == tail[j];
        assert s[1..][k] == s[k + 1];
      }
    }
  }

  /** OrderBy(entry => entry.Month): the entries ascending by month, as a
      permutation of the input. */
  function SortByMonth(s: seq<ProductPriceEntry>): (r: seq<ProductPriceEntry>)
    ensures SortedByMonth(r)
    ensures multiset(r) == multiset(s)
    ensures |r| == |s|
  {
    if s == [] then []
    else
      assert s == s[..|s| - 1] + [s[|s| - 1]];
      InsertByMonth(s[|s| - 1], SortByMonth(s[..|s| - 1]))
  }

  /** The last entry of a sorted history has the latest month of all. */
  lemma LastOfSortedIsLatest(s: seq<ProductPriceEntry>)
    requires s != [] && SortedByMonth(s)
    ensures forall i :: 0 <= i < |s| ==> MonthIndex(s[i].month) <= MonthIndex(Last(s).month)
  {
    forall i | 0 <= i < |s|
      ensures MonthIndex(s[i].month) <= MonthIndex(Last(s).month)
    {
      DateKeyOrdersMonths(s[i].month, Last(s).month);
    }
  }

  function PricesOf(s: seq<ProductPriceEntry>): seq<real>
  {
    seq(|s|, i requires 0 <= i < |s| => s[i].price)
  }

  function MonthsOf(s: seq<ProductPriceEntry>): seq<Date>
  {
    seq(|s|, i requires 0 <= i < |s| => s[i].month)
  }

  // ---------------------------------------------------------------------
  // Target month
  // ---------------------------------------------------------------------

  /** Consecutive periods have consecutive indices. */
  function PeriodIndex(p: Period): int
  {
    p.year * 12 + p.month - 1
  }

  /** new DateTime(year, month, 1).AddMonths(1): the month after d's month. */
  function NextMonth(d: Date): (p: Period)
    ensures PeriodIndex(p) == MonthIndex(d) + 1
  {
    if d.month == 12 then Period(d.year + 1, 1) else Period(d.year, d.month + 1)
  }

  /** The target of a non-empty history: the month after its last entry
      once sorted. */
  function TargetOf(history: seq<ProductPriceEntry>): Period
    requires history != []
  {
    NextMonth(Last(SortByMonth(history)).month)
  }

  /** The target lies one month after the latest month of the history: past
      every entry, and directly after at least one. */
  lemma TargetFollowsLatest(history: seq<ProductPriceEntry>)
    requires history != []
    ensures forall e :: e in history ==> MonthIndex(e.month) < PeriodIndex(TargetOf(history))
    ensures exists e :: e in history && MonthIndex(e.month) + 1 == PeriodIndex(TargetOf(history))
  {
    var sorted := SortByMonth(history);
    LastOfSortedIsLatest(sorted);
    forall e | e in history
      ensures MonthIndex(e.month) < PeriodIndex(TargetOf(history))
    {
      assert e in multiset(sorted);
      var i :| 0 <= i < |sorted| && sorted[i] == e;
    }
    assert Last(sorted) in multiset(history);
  }

  // ---------------------------------------------------------------------
  // The three forecasts
  // ---------------------------------------------------------------------

  /** The predictions list: EMA with the default smoothing factor, linear
      regression, polynomial regression with the default degree, in that
      order. An error of any estimator is an error of the whole list. */
  function Forecasts(fit: Fit, months: seq<Date>, prices: seq<real>): (r: Result<seq<Forecast>>)
    ensures r.Ok? <==> |months| == |prices| >= 2
    ensures r.Err? ==> r.error == (if prices == [] then EmptyPrices else InsufficientOrMismatchedData)
    ensures r.Ok? ==>
              |r.value| == 3 &&
              r.value[0] == Forecast(Ema(prices, DefaultSmoothingFactor), ExponentialMovingAverage) &&
              PredictWithLinearRegression(months, prices) == Ok(r.value[1].predictedPrice) &&
              r.value[1].model == LinearRegression &&
              PredictWithPolynomialRegression(fit, months, prices, DefaultDegree) == Ok(r.value[2].predictedPrice) &&
              r.value[2].model == PolynomialRegression
  {
    if prices == [] then Err(EmptyPrices)
    else
      var ema := Ema(prices, DefaultSmoothingFactor);
      match PredictWithLinearRegression(months, prices)
      case Err(e) => Err(e)
      case Ok(linear) =>
        match PredictWithPolynomialRegression(fit, months, prices, DefaultDegree)
        case Err(e) => Err(e)
        case Ok(poly) =>
          Ok([Forecast(ema, ExponentialMovingAverage), Forecast(linear, LinearRegression), Forecast(poly, PolynomialRegression)])
  }

  /** The predictions list built from the three estimates. */
  lemma ForecastsOfEstimates(fit: Fit, months: seq<Date>, prices: seq<real>, ema: real, linear: real, poly: real)
    requires prices != [] && ema == Ema(prices, DefaultSmoothingFactor)
    requires PredictWithLinearRegression(months, prices) == Ok(linear)
    requires PredictWithPolynomialRegression(fit, months, prices, DefaultDegree) == Ok(poly)
    ensures Forecasts(fit, months, prices) ==
            Ok([Forecast(ema, ExponentialMovingAverage), Forecast(linear, LinearRegression), Forecast(poly, PolynomialRegression)])
  {
  }

  /** The position of an estimator in the storage order. */
  function Rank(m: Estimator): nat
  {
    match m
    case ExponentialMovingAverage => 0
    case LinearRegression => 1
    case PolynomialRegression => 2
  }

  /** The position of a stored label in the storage order (3 for any other
      text). */
  function LabelRank(model: string): nat
  {
    if model == Label(ExponentialMovingAverage) then 0
    else if model == Label(LinearRegression) then 1
    else if model == Label(PolynomialRegression) then 2
    else 3
  }

  /** Labels are told apart: each label ranks as its estimator. */
  lemma LabelRankOfLabel(m: Estimator)
    ensures LabelRank(Label(m)) == Rank(m)
  {
    match m
    case ExponentialMovingAverage =>
    case LinearRegression =>
      assert Label(LinearRegression)[0] != Label(ExponentialMovingAverage)[0];
    case PolynomialRegression =>
      assert Label(PolynomialRegression)[0] != Label(ExponentialMovingAverage)[0];
      assert Label(PolynomialRegression)[0] != Label(LinearRegression)[0];
  }

  /** Forecasts in strictly increasing storage order. */
  predicate InStorageOrder(fs: seq<Forecast>)
  {
    forall i, j :: 0 <= i < j < |fs| ==> Rank(fs[i].model) < Rank(fs[j].model)
  }

  /** Items whose labels come in strictly increasing storage order: each
      model at most once, EMA before linear before polynomial. */
  predicate ItemsInStorageOrder(items: seq<GroceryItem>)
  {
    forall i, j :: 0 <= i < j < |items| ==> LabelRank(items[i].modelUsed) < LabelRank(items[j].modelUsed)
  }

  lemma ForecastsInStorageOrder(fit: Fit, months: seq<Date>, prices: seq<real>)
    requires Forecasts(fit, months, prices).Ok?
    ensures InStorageOrder(Forecasts(fit, months, prices).value)
  {
  }

  // ---------------------------------------------------------------------
  // Handing forecasts to the sink
  // ---------------------------------------------------------------------

  /** The grocery item stored for one forecast. */
  function ItemFor(product: string, target: Period, f: Forecast): GroceryItem
  {
    GroceryItem(target.year, target.month, product, f.predictedPrice, Label(f.model))
  }

  /** The sink's answer to its call number j (0-based): the queued answer,
      or true once the queue is used up. */
  predicate AnswerAt(answers: seq<bool>, j: nat)
  {
    j >= |answers| || answers[j]
  }

  /** The answers still queued after k calls. */
  function Skip(answers: seq<bool>, k: nat): seq<bool>
  {
    if k >= |answers| then [] else answers[k..]
  }

  lemma SkipAnswerAt(answers: seq<bool>, k: nat, j: nat)
    ensures AnswerAt(Skip(answers, k), j) == AnswerAt(answers, k + j)
  {
  }

  lemma SkipSkip(answers: seq<bool>, k: nat, m: nat)
    ensures Skip(Skip(answers, k), m) == Skip(answers, k + m)
  {
    if k + m < |answers| {
      assert answers[k..][m..] == answers[k + m..];
    }
  }

  /** How many of the first n calls the sink accepts before its first
      refusal: every call before that count is accepted, and the call at
      that count, if among the first n, is refused. */
  function AcceptedPrefix(answers: seq<bool>, n: nat): (k: nat)
    decreases n
    ensures k <= n
    ensures forall j :: 0 <= j < k ==> AnswerAt(answers, j)
    ensures k < n ==> !AnswerAt(answers, k)
  {
    if n == 0 || !AnswerAt(answers, 0) then 0
    else
      var k := 1 + AcceptedPrefix(Skip(answers, 1), n - 1);
      forall j | 0 <= j < k
        ensures AnswerAt(answers, j)
      {
        if j > 0 {
          SkipAnswerAt(answers, 1, j - 1);
        }
      }
      SkipAnswerAt(answers, 1, k - 1);
      k
  }

  /** The forecasts with a positive price, in their original order. */
  function PositiveForecasts(fs: seq<Forecast>): (ps: seq<Forecast>)
    ensures |ps| <= |fs|
    ensures forall i :: 0 <= i < |ps| ==> ps[i].predictedPrice > 0.0
  {
    if fs == [] then []
    else
      (if fs[0].predictedPrice > 0.0 then [fs[0]] else []) + PositiveForecasts(fs[1..])
  }

  /** The items for a list of forecasts, one per forecast, in order. */
  function ItemsFor(product: string, target: Period, fs: seq<Forecast>): (items: seq<GroceryItem>)
    ensures |items| == |fs|
    ensures forall i :: 0 <= i < |fs| ==> items[i] == ItemFor(product, target, fs[i])
  {
    if fs == [] then [] else [ItemFor(product, target, fs[0])] + ItemsFor(product, target, fs[1..])
  }

  /** What a run stores when the sink accepts everything: the items of the
      positive forecasts. */
  function Sendable(product: string, target: Period, fs: seq<Forecast>): seq<GroceryItem>
  {
    ItemsFor(product, target, PositiveForecasts(fs))
  }

  /** Sendable, one forecast at a time. */
  lemma SendableCons(product: string, target: Period, fs: seq<Forecast>)
    requires fs != []
    ensures Sendable(product, target, fs) ==
            (if fs[0].predictedPrice > 0.0 then [ItemFor(product, target, fs[0])] else []) +
            Sendable(product, target, fs[1..])
  {
    var rest := PositiveForecasts(fs[1..]);
    if fs[0].predictedPrice > 0.0 {
      assert ([fs[0]] + rest)[1..] == rest;
    } else {
      assert PositiveForecasts(fs) == rest;
    }
  }

  /** Every kept forecast is one of the given forecasts. */
  lemma {:induction false} PositiveForecastsSound(fs: seq<Forecast>)
    ensures forall i :: 0 <= i < |PositiveForecasts(fs)| ==> PositiveForecasts(fs)[i] in fs
    decreases |fs|
  {
    if fs != [] {
      PositiveForecastsSound(fs[1..]);
      assert fs == [fs[0]] + fs[1..];
    }
  }

  /** No positive forecast is left out. */
  lemma {:induction false} PositiveForecastsComplete(fs: seq<Forecast>)
    ensures forall k :: 0 <= k < |fs| && fs[k].predictedPrice > 0.0 ==> fs[k] in PositiveForecasts(fs)
    decreases |fs|
  {
    if fs != [] {
      PositiveForecastsComplete(fs[1..]);
      forall k | 1 <= k < |fs|
        ensures fs[k] == fs[1..][k - 1]
      {
      }
    }
  }

  /** Leaving out forecasts keeps a lower bound on their ranks. */
  lemma {:induction false} PositiveRanksAbove(fs: seq<Forecast>, r: int)
    requires forall k :: 0 <= k < |fs| ==> r < Rank(fs[k].model)
    ensures forall i :: 0 <= i < |PositiveForecasts(fs)| ==> r < Rank(PositiveForecasts(fs)[i].model)
    decreases |fs|
  {
    if fs != [] {
      assert forall k :: 0 <= k < |fs[1..]| ==> fs[1..][k] == fs[k + 1];
      PositiveRanksAbove(fs[1..], r);
    }
  }

  /** Leaving out forecasts keeps the others in storage order. */
  lemma {:induction false} PositiveKeepsStorageOrder(fs: seq<Forecast>)
    requires InStorageOrder(fs)
    ensures InStorageOrder(PositiveForecasts(fs))
    decreases |fs|
  {
    if fs != [] {
      var tail := fs[1..];
      var rest := PositiveForecasts(tail);
      forall i, j | 0 <= i < j < |tail|
        ensures Rank(tail[i].model) < Rank(tail[j].model)
      {
        assert tail[i] == fs[i + 1] && tail[j] == fs[j + 1];
      }
      PositiveKeepsStorageOrder(tail);
      if fs[0].predictedPrice > 0.0 {
        forall k | 0 <= k < |tail|
          ensures Rank(fs[0].model) < Rank(tail[k].model)
        {
          assert tail[k] == fs[k + 1];
        }
        PositiveRanksAbove(tail, Rank(fs[0].model));
        assert PositiveForecasts(fs) == [fs[0]] + rest;
        var ps := [fs[0]] + rest;
        forall i, j | 0 <= i < j < |ps|
          ensures Rank(ps[i].model) < Rank(ps[j].model)
        {
          assert ps[j] == rest[j - 1];
          if i > 0 {
            assert ps[i] == rest[i - 1];
          }
        }
      }
    }
  }

  /** The items of forecasts in storage order have their labels in storage
      order. */
  lemma ItemsKeepStorageOrder(product: string, target: Period, fs: seq<Forecast>)
    requires InStorageOrder(fs)
    ensures ItemsInStorageOrder(ItemsFor(product, target, fs))
  {
    var items := ItemsFor(product, target, fs);
    forall i, j | 0 <= i < j < |items|
      ensures LabelRank(items[i].modelUsed) < LabelRank(items[j].modelUsed)
    {
      LabelRankOfLabel(fs[i].model);
      LabelRankOfLabel(fs[j].model);
    }
  }

  /** The foreach over the predictions as a function of the forecasts and
      the sink's answers: a forecast at or below zero is skipped, any other
      is sent, and the first refusal ends the run with false. */
  function Persist(product: string, target: Period, fs: seq<Forecast>, answers: seq<bool>): RunOutcome
    decreases |fs|
  {
    if fs == [] then RunOutcome(true, [])
    else if fs[0].predictedPrice <= 0.0 then Persist(product, target, fs[1..], answers)
    else
      var item := ItemFor(product, target, fs[0]);
      if !AnswerAt(answers, 0) then RunOutcome(false, [item])
      else
        var rest := Persist(product, target, fs[1..], Skip(answers, 1));
        RunOutcome(rest.ok, [item] + rest.sent)
  }

  /** Persist at position i of the predictions. */
  lemma PersistAt(product: string, target: Period, fs: seq<Forecast>, i: nat, answers: seq<bool>)
    requires i < |fs|
    ensures Persist(product, target, fs[i..], answers) ==
            if fs[i].predictedPrice <= 0.0 then Persist(product, target, fs[i + 1..], answers)
            else if !AnswerAt(answers, 0) then RunOutcome(false, [ItemFor(product, target, fs[i])])
            else
              var rest := Persist(product, target, fs[i + 1..], Skip(answers, 1));
              RunOutcome(rest.ok, [ItemFor(product, target, fs[i])] + rest.sent)
  {
    assert fs[i..][1..] == fs[i + 1..];
  }

  /** A run that has sent `sent` so far and still has `rest` to do ends
      as `whole`. */
  predicate Completes(whole: RunOutcome, sent: seq<GroceryItem>, rest: RunOutcome)
  {
    whole.ok == rest.ok && whole.sent == sent + rest.sent
  }

  /** A forecast at or below zero is passed over without using an answer. */
  lemma PersistSkipStep(product: string, target: Period, fs: seq<Forecast>, i: nat, answers: seq<bool>,
                        whole: RunOutcome, sent: seq<GroceryItem>)
    requires i < |fs| && fs[i].predictedPrice <= 0.0
    requires Completes(whole, sent, Persist(product, target, fs[i..], answers))
    ensures Completes(whole, sent, Persist(product, target, fs[i + 1..], answers))
  {
    PersistAt(product, target, fs, i, answers);
  }

  /** A positive forecast is sent; an accepting answer goes on with the
      next forecast, a refusing one ends the run with false. */
  lemma PersistSendStep(product: string, target: Period, fs: seq<Forecast>, i: nat, answers: seq<bool>,
                        whole: RunOutcome, sent: seq<GroceryItem>)
    requires i < |fs| && fs[i].predictedPrice > 0.0
    requires Completes(whole, sent, Persist(product, target, fs[i..], answers))
    ensures var item := ItemFor(product, target, fs[i]);
            if AnswerAt(answers, 0)
            then Completes(whole, sent + [item], Persist(product, target, fs[i + 1..], Skip(answers, 1)))
            else whole == RunOutcome(false, sent + [item])
  {
    PersistAt(product, target, fs, i, answers);
    var item := ItemFor(product, target, fs[i]);
    var next := Persist(product, target, fs[i + 1..], Skip(answers, 1));
    assert sent + ([item] + next.sent) == (sent + [item]) + next.sent;
  }

  /** Persist in closed form: with k the number of sendable items the sink
      accepts before its first refusal, it returns true and has sent every
      sendable item when all are accepted; otherwise it returns false and
      has sent the first k + 1, the last of them refused. */
  lemma {:induction false} PersistOutcome(product: string, target: Period, fs: seq<Forecast>, answers: seq<bool>)
    ensures var all := Sendable(product, target, fs);
            var k := AcceptedPrefix(answers, |all|);
            Persist(product, target, fs, answers) ==
              if k == |all| then RunOutcome(true, all) else RunOutcome(false, all[..k + 1])
    decreases |fs|
  {
    if fs != [] {
      SendableCons(product, target, fs);
      if fs[0].predictedPrice <= 0.0 {
        PersistOutcome(product, target, fs[1..], answers);
      } else if AnswerAt(answers, 0) {
        var item := ItemFor(product, target, fs[0]);
        var tail := Sendable(product, target, fs[1..]);
        var k := AcceptedPrefix(Skip(answers, 1), |tail|);
        PersistOutcome(product, target, fs[1..], Skip(answers, 1));
        if k < |tail| {
          assert ([item] + tail)[..k + 2] == [item] + tail[..k + 1];
        }
      }
    }
  }

  // ---------------------------------------------------------------------
  // A whole run
  // ---------------------------------------------------------------------

  /** The forecasts of a history once sorted, or an error. */
  function HistoryForecasts(fit: Fit, history: seq<ProductPriceEntry>): Result<seq<Forecast>>
  {
    var sorted := SortByMonth(history);
    Forecasts(fit, MonthsOf(sorted), PricesOf(sorted))
  }

  /** PredictAndAddNextMonthPrice as a function of the history, the fit and
      the sink's answers. */
  function Run(fit: Fit, product: string, history: seq<ProductPriceEntry>, answers: seq<bool>): RunOutcome
  {
    var sorted := SortByMonth(history);
    if sorted == [] then RunOutcome(false, [])
    else
      match Forecasts(fit, MonthsOf(sorted), PricesOf(sorted))
      case Err(_) => RunOutcome(false, [])
      case Ok(fs) => Persist(product, NextMonth(Last(sorted).month), fs, answers)
  }

  /** The items a run stores when the sink accepts everything. */
  function Planned(fit: Fit, product: string, history: seq<ProductPriceEntry>): seq<GroceryItem>
  {
    if history == [] then []
    else
      match HistoryForecasts(fit, history)
      case Err(_) => []
      case Ok(fs) => Sendable(product, TargetOf(history), fs)
  }

  /** With the forecasts of the sorted history at hand, a run is Persist
      over them for the target month. */
  lemma RunWithForecasts(fit: Fit, product: string, history: seq<ProductPriceEntry>, answers: seq<bool>, fs: seq<Forecast>)
    requires history != []
    requires HistoryForecasts(fit, history) == Ok(fs)
    ensures Run(fit, product, history, answers) == Persist(product, TargetOf(history), fs, answers)
  {
  }

  /** Without forecasts a run returns false and sends nothing. */
  lemma RunWithoutForecasts(fit: Fit, product: string, history: seq<ProductPriceEntry>, answers: seq<bool>)
    requires HistoryForecasts(fit, history).Err?
    ensures Run(fit, product, history, answers) == RunOutcome(false, [])
  {
  }

  /** An empty history, or a single entry (for which linear regression
      raises), ends the run with false before the sink is called. */
  lemma RunRejectsShortHistory(fit: Fit, product: string, history: seq<ProductPriceEntry>, answers: seq<bool>)
    requires |history| < 2
    ensures Run(fit, product, history, answers) == RunOutcome(false, [])
  {
  }

  /** A run in closed form. With fewer than two entries it returns false and
      sends nothing. Otherwise, with k the number of planned items (at most
      three) the sink accepts before its first refusal, it returns true
      after sending every planned item when all are accepted, and otherwise
      returns false after sending the first k + 1, the last of them refused. */
  lemma RunOutcomeCharacterized(fit: Fit, product: string, history: seq<ProductPriceEntry>, answers: seq<bool>)
    ensures var plan := Planned(fit, product, history);
            var k := AcceptedPrefix(answers, |plan|);
            |plan| <= 3 &&
            Run(fit, product, history, answers) ==
              if |history| < 2 then RunOutcome(false, [])
              else if k == |plan| then RunOutcome(true, plan)
              else RunOutcome(false, plan[..k + 1])
  {
    if |history| >= 2 {
      var fs := HistoryForecasts(fit, history).value;
      RunWithForecasts(fit, product, history, answers, fs);
      PersistOutcome(product, TargetOf(history), fs, answers);
    }
  }

  /** A run returns true exactly when the history has at least two entries
      and the sink accepts every planned item. */
  lemma RunSucceedsIff(fit: Fit, product: string, history: seq<ProductPriceEntry>, answers: seq<bool>)
    ensures var plan := Planned(fit, product, history);
            Run(fit, product, history, answers).ok <==>
              |history| >= 2 && forall j :: 0 <= j < |plan| ==> AnswerAt(answers, j)
  {
    RunOutcomeCharacterized(fit, product, history, answers);
  }

  /** The items Persist sends are those of the first positive forecasts,
      for the target month, and keep the storage order of the forecasts. */
  lemma PersistSentItems(product: string, target: Period, fs: seq<Forecast>, answers: seq<bool>)
    ensures var o := Persist(product, target, fs, answers);
            var ps := PositiveForecasts(fs);
            |o.sent| <= |ps| &&
            (forall i :: 0 <= i < |o.sent| ==>
               o.sent[i] == GroceryItem(target.year, target.month, product, ps[i].predictedPrice, Label(ps[i].model))) &&
            (InStorageOrder(fs) ==> ItemsInStorageOrder(o.sent))
  {
    var o := Persist(product, target, fs, answers);
    var all := Sendable(product, target, fs);
    PersistOutcome(product, target, fs, answers);
    assert o.sent == all[..|o.sent|];
    if InStorageOrder(fs) {
      PositiveKeepsStorageOrder(fs);
      ItemsKeepStorageOrder(product, target, PositiveForecasts(fs));
    }
  }

  /** Every item a run stores names the product and the month after the
      latest entry, and carries a positive forecast of one of the three
      estimators under that estimator's label; the labels come in the order
      EMA, linear regression, polynomial regression, each at most once. */
  lemma RunSentItems(fit: Fit, product: string, history: seq<ProductPriceEntry>, answers: seq<bool>)
    requires |history| >= 2
    ensures HistoryForecasts(fit, history).Ok?
    ensures var o := Run(fit, product, history, answers);
            var ps := PositiveForecasts(HistoryForecasts(fit, history).value);
            var target := TargetOf(history);
            |o.sent| <= |ps| && ItemsInStorageOrder(o.sent) &&
            forall i :: 0 <= i < |o.sent| ==>
              o.sent[i] == GroceryItem(target.year, target.month, product, ps[i].predictedPrice, Label(ps[i].model))
  {
    var sorted := SortByMonth(history);
    var fs := HistoryForecasts(fit, history).value;
    RunWithForecasts(fit, product, history, answers, fs);
    ForecastsInStorageOrder(fit, MonthsOf(sorted), PricesOf(sorted));
    PersistSentItems(product, TargetOf(history), fs, answers);
  }

  // ---------------------------------------------------------------------
  // The sink and the method
  // ---------------------------------------------------------------------

  /** The sink of stored items: it records every call and answers from a
      queue, accepting once the queue is used up. */
  class PredictionSink {
    var log: seq<GroceryItem>
    var pending: seq<bool>

    constructor(answers: seq<bool>)
      ensures log == [] && pending == answers
    {
      log := [];
      pending := answers;
    }

    /** addToDatabase(item): records the call and returns the next answer. */
    method Add(item: GroceryItem) returns (ok: bool)
      modifies this
      ensures ok == AnswerAt(old(pending), 0)
      ensures log == old(log) + [item]
      ensures pending == Skip(old(pending), 1)
    {
      ok := pending == [] || pending[0];
      log := log + [item];
      pending := Skip(pending, 1);
    }
  }

  /** PredictAndAddNextMonthPrice with the history as an input sequence:
      the result, the calls the sink receives and the answers it uses up
      are those of Run. */
  method PredictAndAddNextMonthPrice(productName: string, history: seq<ProductPriceEntry>, fit: Fit, sink: PredictionSink)
    returns (ok: bool)
    modifies sink
    ensures var o := Run(fit, productName, history, old(sink.pending));
            ok == o.ok && sink.log == old(sink.log) + o.sent &&
            sink.pending == Skip(old(sink.pending), |o.sent|)
  {
    var historicalData := SortByMonth(history);
    if |historicalData| == 0 {
      RunWithoutForecasts(fit, productName, history, sink.pending);
      return false;
    }
    var prices := PricesOf(historicalData);
    var months := MonthsOf(historicalData);
    var lastMonth := Last(months);
    var nextMonth := NextMonth(lastMonth);
    assert nextMonth == TargetOf(history);
    assert HistoryForecasts(fit, history) == Forecasts(fit, months, prices);

    var ema := PredictWithEMA(prices, DefaultSmoothingFactor);
    var linear := PredictWithLinearRegression(months, prices);
    var poly := PredictWithPolynomialRegression(fit, months, prices, DefaultDegree);
    if ema.Err? || linear.Err? || poly.Err? {
      RunWithoutForecasts(fit, productName, history, sink.pending);
      return false;
    }
    var predictions := [
      Forecast(ema.value, ExponentialMovingAverage),
      Forecast(linear.value, LinearRegression),
      Forecast(poly.value, PolynomialRegression)
    ];
    ForecastsOfEstimates(fit, months, prices, ema.value, linear.value, poly.value);
    RunWithForecasts(fit, productName, history, sink.pending, predictions);
    ok := StorePredictions(productName, nextMonth, predictions, sink);
  }

  /** The foreach over the predictions: a forecast at or below zero is
      skipped, any other is handed to the sink as the item for the target
      month, and the first refusal returns false. */
  method StorePredictions(productName: string, nextMonth: Period, predictions: seq<Forecast>, sink: PredictionSink)
    returns (ok: bool)
    modifies sink
    ensures var o := Persist(productName, nextMonth, predictions, old(sink.pending));
            ok == o.ok && sink.log == old(sink.log) + o.sent &&
            sink.pending == Skip(old(sink.pending), |o.sent|)
  {
    ghost var answers := sink.pending;
    ghost var whole := Persist(productName, nextMonth, predictions, answers);
    ghost var sent: seq<GroceryItem> := [];
    for i := 0 to |predictions|
      invariant sink.log == old(sink.log) + sent
      invariant sink.pending == Skip(answers, |sent|)
      invariant Completes(whole, sent, Persist(productName, nextMonth, predictions[i..], sink.pending))
    {
      if predictions[i].predictedPrice <= 0.0 {
        PersistSkipStep(productName, nextMonth, predictions, i, sink.pending, whole, sent);
        continue;
      }
      var newItem := ItemFor(productName, nextMonth, predictions[i]);
      PersistSendStep(productName, nextMonth, predictions, i, sink.pending, whole, sent);
      SkipSkip(answers, |sent|, 1);
      var added := sink.Add(newItem);
      sent := sent + [newItem];
      if !added {
        return false;
      }
    }
    return true;
  }
}
