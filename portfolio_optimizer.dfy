/**
 * The mean-variance portfolio optimizer: daily simple returns, annualised
 * return, volatility and Sharpe ratio, the optimisation problem handed to
 * the solver, random frontier sampling, and the risk metrics of a weighting.
 *
 * Prices are `real`s. The market-data download, the SLSQP solver, the random
 * generator, `sqrt` and `np.percentile` are opaque functions given as
 * parameters. A NaN the source can produce is `None`.
 */
module PortfolioOptimizer {
  import opened Maybe
  import opened RealSeq
  import opened PyDict

  const TradingDays: real := 252.0

  // ---------------------------------------------------------------- frames

  /** A price frame after `dropna`: one column per name, every row complete. */
  datatype PriceFrame = PriceFrame(columns: seq<string>, rows: seq<seq<real>>)

  /** Every row has one entry per column. */
  predicate Rect(rows: seq<seq<real>>, k: nat) {
    forall t :: 0 <= t < |rows| ==> |rows[t]| == k
  }

  /** What `yf.download` hands back: a Series or a DataFrame whose cells may be NaN. */
  datatype Table =
    | Series(name: string, values: seq<Option<real>>)
    | Frame(names: seq<string>, cells: seq<seq<Option<real>>>)

  /** A download: its length, its "Adj Close" entry if it has one, and the whole table. */
  datatype Download = Download(length: nat, adjClose: Option<Table>, whole: Table)

  predicate Complete(row: seq<Option<real>>) {
    forall j :: 0 <= j < |row| ==> row[j].Some?
  }

  function Values(row: seq<Option<real>>): (r: seq<real>)
    requires Complete(row)
    ensures |r| == |row| && forall j :: 0 <= j < |row| ==> row[j] == Some(r[j])
  {
    seq(|row|, j requires 0 <= j < |row| => row[j].value)
  }

  /**
   * `dropna()`: the rows without NaN, in order. A pandas row always has one
   * cell per column, so the width test only keeps the frame rectangular.
   */
  function DropNa(cells: seq<seq<Option<real>>>, k: nat): (rows: seq<seq<real>>)
    ensures Rect(rows, k) && |rows| <= |cells|
    ensures (forall t :: 0 <= t < |cells| ==> |cells[t]| == k && Complete(cells[t])) ==> |rows| == |cells|
  {
    if cells == [] then []
    else
      var rows := DropNa(cells[..|cells| - 1], k);
      var last := cells[|cells| - 1];
      if |last| == k && Complete(last) then rows + [Values(last)] else rows
  }

  /**
   * The frame one download attempt yields, or None when the loop moves on:
   * no data, a DataFrame where one symbol expects a Series (`to_frame`
   * raises), or nothing left after `dropna`.
   */
  function Usable(d: Option<Download>, symbols: seq<string>): (r: Option<PriceFrame>)
    requires symbols != []
    ensures r.Some? ==> r.value.rows != [] && r.value.columns != [] && Rect(r.value.rows, |r.value.columns|)
    ensures d.None? || d.value.length == 0 ==> r == None
  {
    if d.None? || d.value.length == 0 then None
    else
      var adj := d.value.adjClose.GetOr(d.value.whole);
      var frame :=
        match adj
        case Series(name, values) =>
          var column := if |symbols| == 1 then symbols[0] else name;
          Some(PriceFrame([column], DropNa(seq(|values|, t requires 0 <= t < |values| => [values[t]]), 1)))
        case Frame(names, cells) =>
          if |symbols| == 1 then None else Some(PriceFrame(names, DropNa(cells, |names|)));
      if frame.Some? && frame.value.rows != [] && frame.value.columns != [] then frame else None
  }

  /** The first usable attempt, in order. */
  function FirstUsable(attempts: seq<Option<PriceFrame>>): (r: Option<PriceFrame>)
    ensures r.Some? <==> exists k :: 0 <= k < |attempts| && attempts[k].Some?
    ensures r.Some? ==> exists k :: 0 <= k < |attempts| && attempts[k] == r
                                    && forall m :: 0 <= m < k ==> attempts[m].None?
  {
    if attempts == [] then None
    else if attempts[0].Some? then attempts[0]
    else
      var r := FirstUsable(attempts[1..]);
      assert forall k :: 0 < k < |attempts| ==> attempts[k] == attempts[1..][k - 1];
      r
  }

  /** The periods `get_historical_data` tries, in order. */
  function Periods(period: string): seq<string> {
    [period, "1y", "6mo"]
  }

  /** What each period in turn yields. */
  function Attempts(symbols: seq<string>, period: string, download: (seq<string>, string) -> Option<Download>)
    : (a: seq<Option<PriceFrame>>)
    requires symbols != []
    ensures |a| == 3 && forall k :: 0 <= k < 3 ==> a[k] == Usable(download(symbols, Periods(period)[k]), symbols)
  {
    [Usable(download(symbols, period), symbols), Usable(download(symbols, "1y"), symbols),
     Usable(download(symbols, "6mo"), symbols)]
  }

  /** `get_historical_data`: None is the empty DataFrame. */
  function HistoricalData(symbols: seq<string>, period: string, yfAvailable: bool,
                          download: (seq<string>, string) -> Option<Download>): (r: Option<PriceFrame>)
    ensures !yfAvailable || symbols == [] ==> r == None
    ensures r.Some? ==> r.value.rows != [] && r.value.columns != [] && Rect(r.value.rows, |r.value.columns|)
  {
    if !yfAvailable || symbols == [] then None
    else
      FirstUsable(Attempts(symbols, period, download))
  }

  // ---------------------------------------------------------------- returns and statistics

  function Column(rows: seq<seq<real>>, k: nat, j: nat): (c: seq<real>)
    requires Rect(rows, k) && j < k
    ensures |c| == |rows| && forall t :: 0 <= t < |rows| ==> c[t] == rows[t][j]
  {
    seq(|rows|, t requires 0 <= t < |rows| => rows[t][j])
  }

  /** One row of `pct_change()`; None when a previous price is 0 (the row is dropped here). */
  function RowReturn(prev: seq<real>, cur: seq<real>): (r: Option<seq<real>>)
    requires |prev| == |cur|
    ensures r.Some? <==> forall j :: 0 <= j < |prev| ==> prev[j] != 0.0
    ensures r.Some? ==> |r.value| == |cur| && forall j :: 0 <= j < |cur| ==> r.value[j] == cur[j] / prev[j] - 1.0
  {
    if forall j :: 0 <= j < |prev| ==> prev[j] != 0.0
    then Some(seq(|cur|, j requires 0 <= j < |cur| => cur[j] / prev[j] - 1.0))
    else None
  }

  /** `calculate_returns`: `prices.pct_change().dropna()`. */
  function Returns(rows: seq<seq<real>>, k: nat): (r: seq<seq<real>>)
    requires Rect(rows, k)
    ensures Rect(r, k)
    ensures |r| <= if rows == [] then 0 else |rows| - 1
  {
    if |rows| <= 1 then []
    else
      var r := Returns(rows[..|rows| - 1], k);
      match RowReturn(rows[|rows| - 2], rows[|rows| - 1])
      case Some(x) => r + [x]
      case None => r
  }

  /**
   * With no zero price, the first row (which has no predecessor) is the only
   * one dropped, and every return is the day-over-day price ratio minus one.
   */
  lemma {:induction false} ReturnsOfNonZeroPrices(rows: seq<seq<real>>, k: nat)
    requires Rect(rows, k) && |rows| >= 1
    requires forall t, j :: 0 <= t < |rows| && 0 <= j < k ==> rows[t][j] != 0.0
    ensures |Returns(rows, k)| == |rows| - 1
    ensures forall t, j :: 0 <= t < |rows| - 1 && 0 <= j < k ==>
              Returns(rows, k)[t][j] == rows[t + 1][j] / rows[t][j] - 1.0
    decreases |rows|
  {
    if |rows| > 1 {
      var front := rows[..|rows| - 1];
      ReturnsOfNonZeroPrices(front, k);
      assert forall t :: 0 <= t < |front| ==> front[t] == rows[t];
    }
  }

  /** `Σ a[i] * b[i]`. */
  function Dot(a: seq<real>, b: seq<real>): real
    requires |a| == |b|
  {
    if a == [] then 0.0 else Dot(a[..|a| - 1], b[..|b| - 1]) + a[|a| - 1] * b[|b| - 1]
  }

  /** Weighting a constant vector gives the constant times the total weight. */
  lemma {:induction false} DotRepeat(m: real, w: seq<real>)
    ensures Dot(Repeat(m, |w|), w) == m * Sum(w)
    decreases |w|
  {
    if w != [] {
      var w' := w[..|w| - 1];
      assert Repeat(m, |w|)[..|w| - 1] == Repeat(m, |w'|);
      DotRepeat(m, w');
    }
  }

  /** `returns.mean()`: the column means, defined when there is a row. */
  function Means(daily: seq<seq<real>>, k: nat): (ms: seq<real>)
    requires Rect(daily, k) && |daily| > 0
    ensures |ms| == k && forall j :: 0 <= j < k ==> ms[j] == Mean(Column(daily, k, j))
  {
    seq(k, j requires 0 <= j < k => Mean(Column(daily, k, j)))
  }

  /**
   * `np.sum(returns.mean() * weights) * 252`. With no return rows every mean
   * is NaN and the pandas sum skips them all, giving 0.
   */
  function AnnualReturn(daily: seq<seq<real>>, k: nat, w: seq<real>): real
    requires Rect(daily, k) && |w| == k
  {
    if daily == [] then 0.0 else Dot(Means(daily, k), w) * TradingDays
  }

  /** Fully invested in assets that share one mean daily return m, the annual return is 252 m. */
  lemma {:induction false} AnnualReturnOfEqualMeans(daily: seq<seq<real>>, k: nat, w: seq<real>, m: real)
    requires Rect(daily, k) && |w| == k && |daily| > 0
    requires forall j :: 0 <= j < k ==> Mean(Column(daily, k, j)) == m
    requires Sum(w) == 1.0
    ensures AnnualReturn(daily, k, w) == TradingDays * m
  {
    assert Means(daily, k) == Repeat(m, k);
    DotRepeat(m, w);
  }

  /** The sample covariance (ddof = 1) of columns i and j. */
  function Covariance(daily: seq<seq<real>>, k: nat, i: nat, j: nat): real
    requires Rect(daily, k) && |daily| >= 2 && i < k && j < k
  {
    var mi, mj := Mean(Column(daily, k, i)), Mean(Column(daily, k, j));
    Sum(seq(|daily|, t requires 0 <= t < |daily| => (daily[t][i] - mi) * (daily[t][j] - mj)))
      / (|daily| as real - 1.0)
  }

  /** `returns.cov() * 252`. */
  function AnnualCovariance(daily: seq<seq<real>>, k: nat): (c: seq<seq<real>>)
    requires Rect(daily, k) && |daily| >= 2
    ensures |c| == k && Rect(c, k)
  {
    seq(k, i requires 0 <= i < k => seq(k, j requires 0 <= j < k => Covariance(daily, k, i, j) * TradingDays))
  }

  /** `np.dot(w.T, np.dot(c, w))`. */
  function QuadraticForm(c: seq<seq<real>>, w: seq<real>): real
    requires |c| == |w| && Rect(c, |w|)
  {
    Dot(w, seq(|w|, i requires 0 <= i < |w| => Dot(c[i], w)))
  }

  /** The annual volatility; NaN (None) when there are fewer than two return rows. */
  function AnnualVolatility(daily: seq<seq<real>>, k: nat, w: seq<real>, sqrt: real -> real): Option<real>
    requires Rect(daily, k) && |w| == k
  {
    if |daily| < 2 then None else Some(sqrt(QuadraticForm(AnnualCovariance(daily, k), w)))
  }

  datatype Stats = Stats(annualReturn: real, volatility: Option<real>, sharpeRatio: real)

  // ---------------------------------------------------------------- the optimisation problem

  /** `{"conservative": 0.5, "moderate": 1.0, "aggressive": 1.5}.get(risk_tolerance, 1.0)`. */
  function RiskMultiplier(riskTolerance: string): (m: real)
    ensures riskTolerance == "conservative" <==> m == 0.5
    ensures riskTolerance == "aggressive" <==> m == 1.5
    ensures riskTolerance != "conservative" && riskTolerance != "aggressive" <==> m == 1.0
  {
    if riskTolerance == "conservative" then 0.5
    else if riskTolerance == "aggressive" then 1.5
    else 1.0
  }

  datatype Constraint = WeightsSumToOne | AnnualReturnEquals(target: real)

  /** What the solver minimises: the annual volatility, or minus the Sharpe ratio over `riskFreeRate` times the multiplier. */
  datatype Objective = MinimizeVolatility | MinimizeNegativeSharpe(multiplier: real, riskFreeRate: real)

  datatype Bound = Bound(lo: real, hi: real)

  /** Everything handed to `minimize(..., method="SLSQP")`. */
  datatype Problem = Problem(initial: seq<real>, bounds: seq<Bound>, constraints: seq<Constraint>, objective: Objective)

  /**
   * The problem `optimize` sets up: start from equal weights 1/n, keep each
   * weight in [0, 1], require full investment, and pin the annual return
   * (minimising volatility) only when a target is given; otherwise maximise
   * the Sharpe ratio over the optimizer's risk-free rate, scaled by the
   * risk multiplier.
   */
  function SetUp(n: nat, riskTolerance: string, target: Option<real>, riskFreeRate: real): (p: Problem)
    requires n > 0
    ensures |p.initial| == n && forall i :: 0 <= i < n ==> p.initial[i] == 1.0 / n as real
    ensures |p.bounds| == n && forall i :: 0 <= i < n ==> p.bounds[i] == Bound(0.0, 1.0)
    ensures p.constraints != [] && p.constraints[0] == WeightsSumToOne
    ensures target.None? ==> p.constraints == [WeightsSumToOne]
                             && p.objective == MinimizeNegativeSharpe(RiskMultiplier(riskTolerance), riskFreeRate)
    ensures target.Some? ==> p.constraints == [WeightsSumToOne, AnnualReturnEquals(target.value)]
                             && p.objective == MinimizeVolatility
  {
    var initial, bounds := Repeat(1.0 / n as real, n), seq(n, _ => Bound(0.0, 1.0));
    match target
    case Some(t) => Problem(initial, bounds, [WeightsSumToOne, AnnualReturnEquals(t)], MinimizeVolatility)
    case None => Problem(initial, bounds, [WeightsSumToOne], MinimizeNegativeSharpe(RiskMultiplier(riskTolerance), riskFreeRate))
  }

  /** A weighting meets a constraint. */
  predicate Meets(c: Constraint, daily: seq<seq<real>>, k: nat, w: seq<real>)
    requires Rect(daily, k) && |w| == k
  {
    match c
    case WeightsSumToOne => Sum(w) == 1.0
    case AnnualReturnEquals(t) => AnnualReturn(daily, k, w) == t
  }

  /** The equal-weight starting point lies in the bounds and is fully invested. */
  lemma {:induction false} InitialPointFeasible(n: nat, riskTolerance: string, target: Option<real>, riskFreeRate: real,
                                                daily: seq<seq<real>>)
    requires n > 0 && Rect(daily, n)
    ensures var p := SetUp(n, riskTolerance, target, riskFreeRate);
            (forall i :: 0 <= i < n ==> p.bounds[i].lo <= p.initial[i] <= p.bounds[i].hi)
            && Meets(WeightsSumToOne, daily, n, p.initial)
  {
    SumRepeat(1.0 / n as real, n);
  }

  datatype SolverResult = SolverResult(success: bool, x: seq<real>, message: string)

  // ---------------------------------------------------------------- frontier sampling

  /** `w / np.sum(w)`. */
  function Normalize(v: seq<real>): (w: seq<real>)
    requires Sum(v) != 0.0
    ensures |w| == |v| && forall j :: 0 <= j < |v| ==> w[j] == v[j] / Sum(v)
  {
    seq(|v|, j requires 0 <= j < |v| => v[j] / Sum(v))
  }

  /** A normalised draw of non-negative numbers is a valid long-only weighting. */
  lemma {:induction false} NormalizedIsWeighting(v: seq<real>)
    requires forall j :: 0 <= j < |v| ==> v[j] >= 0.0
    requires Sum(v) > 0.0
    ensures Sum(Normalize(v)) == 1.0
    ensures forall j :: 0 <= j < |v| ==> 0.0 <= Normalize(v)[j] <= 1.0
  {
    NormalizedSumsToOne(v);
    forall j | 0 <= j < |v|
      ensures 0.0 <= Normalize(v)[j] <= 1.0
    {
      TermAtMostSum(v, j);
      FractionAtMostOne(v[j], Sum(v));
    }
  }

  lemma {:induction false} NormalizedSumsToOne(v: seq<real>)
    requires Sum(v) != 0.0
    ensures Sum(Normalize(v)) == 1.0
  {
    var s := Sum(v);
    NormalizeIsScale(v);
    SumScale(v, 1.0 / s);
    Reciprocal(s);
  }

  lemma {:induction false} NormalizeIsScale(v: seq<real>)
    requires Sum(v) != 0.0
    ensures Normalize(v) == Scale(v, 1.0 / Sum(v))
  {
    var s := Sum(v);
    var w, scaled := Normalize(v), Scale(v, 1.0 / s);
    forall j | 0 <= j < |v|
      ensures w[j] == scaled[j]
    {
      DivisionIsScaling(v[j], s);
    }
    assert w == scaled;
  }

  lemma Reciprocal(s: real)
    requires s != 0.0
    ensures s * (1.0 / s) == 1.0
  {
  }

  lemma DivisionIsScaling(x: real, s: real)
    requires s != 0.0
    ensures x / s == x * (1.0 / s)
  {
  }

  lemma FractionAtMostOne(x: real, s: real)
    requires 0.0 <= x <= s && s > 0.0
    ensures 0.0 <= x / s <= 1.0
  {
  }

  /** A term of a sum of non-negative numbers is at most the sum. */
  lemma {:induction false} TermAtMostSum(v: seq<real>, j: nat)
    requires forall i :: 0 <= i < |v| ==> v[i] >= 0.0
    requires j < |v|
    ensures v[j] <= Sum(v)
  {
    var e := seq(|v|, i requires 0 <= i < |v| => if i == j then v[i] else 0.0);
    var rest := seq(|v|, i requires 0 <= i < |v| => if i == j then 0.0 else v[i]);
    SumSplit(v, e, rest);
    SumNonNegative(rest);
    SumSingle(e, j);
  }

  lemma {:induction false} SumSplit(v: seq<real>, a: seq<real>, b: seq<real>)
    requires |a| == |v| && |b| == |v|
    requires forall i :: 0 <= i < |v| ==> v[i] == a[i] + b[i]
    ensures Sum(v) == Sum(a) + Sum(b)
    decreases |v|
  {
    if v != [] {
      SumSplit(v[..|v| - 1], a[..|a| - 1], b[..|b| - 1]);
    }
  }

  lemma {:induction false} SumSingle(e: seq<real>, j: nat)
    requires j < |e| && forall i :: 0 <= i < |e| && i != j ==> e[i] == 0.0
    ensures Sum(e) == e[j]
    decreases |e|
  {
    if |e| - 1 > j {
      SumSingle(e[..|e| - 1], j);
    } else {
      var front := e[..|e| - 1];
      assert forall i :: 0 <= i < |front| ==> front[i] == 0.0;
      SumZeros(front);
    }
  }

  lemma {:induction false} SumZeros(z: seq<real>)
    requires forall i :: 0 <= i < |z| ==> z[i] == 0.0
    ensures Sum(z) == 0.0
    decreases |z|
  {
    if z != [] {
      SumZeros(z[..|z| - 1]);
    }
  }

  /** `np.random.random(n)` after `np.random.seed(42)`: n numbers in [0, 1), not all zero. */
  ghost predicate UnitDraws(draw: nat -> seq<real>, n: nat) {
    forall i: nat :: |draw(i)| == n && Sum(draw(i)) > 0.0
                     && forall j :: 0 <= j < n ==> 0.0 <= draw(i)[j] < 1.0
  }

  lemma {:induction false} DrawAt(draw: nat -> seq<real>, n: nat, i: nat)
    requires UnitDraws(draw, n)
    ensures |draw(i)| == n && Sum(draw(i)) > 0.0
  {
  }

  /** The normalised weight vector of each of the first `count` draws. */
  function Weightings(draw: nat -> seq<real>, n: nat, count: nat): (ws: seq<seq<real>>)
    requires UnitDraws(draw, n)
    ensures |ws| == count
    ensures forall m :: 0 <= m < count ==> |ws[m]| == n && ws[m] == Normalize(draw(m))
  {
    seq(count, m requires 0 <= m < count => Normalize(draw(m)))
  }

  datatype Frontier = Frontier(annualReturns: seq<real>, volatilities: seq<Option<real>>,
                               sharpeRatios: seq<real>, weights: seq<seq<real>>)

  // ---------------------------------------------------------------- risk metrics

  /** `(returns * weights).sum(axis=1)`: the portfolio's daily returns. */
  function PortfolioReturns(daily: seq<seq<real>>, k: nat, w: seq<real>): (pr: seq<real>)
    requires Rect(daily, k) && |w| == k
    ensures |pr| == |daily| && forall t :: 0 <= t < |daily| ==> pr[t] == Dot(daily[t], w)
  {
    seq(|daily|, t requires 0 <= t < |daily| => Dot(daily[t], w))
  }

  /** `(1 + pr).cumprod()`. */
  function Cumulative(pr: seq<real>): (c: seq<real>)
    ensures |c| == |pr|
    ensures pr != [] ==> c[0] == 1.0 + pr[0]
  {
    if pr == [] then []
    else
      var c := Cumulative(pr[..|pr| - 1]);
      var last := (if c == [] then 1.0 else c[|c| - 1]) * (1.0 + pr[|pr| - 1]);
      c + [last]
  }

  /** Each later day multiplies the previous day's index by one plus its return. */
  lemma {:induction false} CumulativeAt(pr: seq<real>, t: nat)
    requires 0 < t < |pr|
    ensures Cumulative(pr)[t] == Cumulative(pr)[t - 1] * (1.0 + pr[t])
    decreases |pr|
  {
    var init := pr[..|pr| - 1];
    if t < |pr| - 1 {
      CumulativeAt(init, t);
      assert init[t] == pr[t];
    }
  }

  /** `cumulative.expanding().max()`. */
  function RunningMax(c: seq<real>): (m: seq<real>)
    ensures |m| == |c| && forall t :: 0 <= t < |c| ==> m[t] == Max(c[..t + 1])
  {
    seq(|c|, t requires 0 <= t < |c| => Max(c[..t + 1]))
  }

  /**
   * The running maximum on day `t` is a peak reached by day `t`: at least
   * that day's value, never below an earlier day's maximum, and one of the
   * values seen so far.
   */
  lemma {:induction false} RunningMaxIsPeak(c: seq<real>, s: nat, t: nat)
    requires s <= t < |c|
    ensures var m := RunningMax(c);
            && c[t] <= m[t] && m[s] <= m[t]
            && exists k :: 0 <= k <= t && c[k] == m[t]
  {
    var m, prefix, earlier := RunningMax(c), c[..t + 1], c[..s + 1];
    assert prefix[t] == c[t];
    var j :| 0 <= j < |earlier| && earlier[j] == m[s];
    assert prefix[j] == earlier[j];
    var k :| 0 <= k < |prefix| && prefix[k] == m[t];
    assert c[k] == m[t];
  }

  /** `(cumulative - rolling_max) / rolling_max`; a zero maximum is NaN. */
  function Drawdowns(pr: seq<real>): (d: seq<Option<real>>)
    ensures |d| == |pr|
    ensures forall t :: 0 <= t < |pr| ==> (d[t].Some? <==> RunningMax(Cumulative(pr))[t] != 0.0)
  {
    var c, m := Cumulative(pr), RunningMax(Cumulative(pr));
    seq(|pr|, t requires 0 <= t < |pr| => if m[t] != 0.0 then Some((c[t] - m[t]) / m[t]) else None)
  }

  /** `series.min()` (skipna): None when every entry is NaN. */
  function MinDefined(xs: seq<Option<real>>): (r: Option<real>)
    ensures r.None? <==> forall t :: 0 <= t < |xs| ==> xs[t].None?
    ensures r.Some? ==> (exists t :: 0 <= t < |xs| && xs[t] == r)
                        && forall t :: 0 <= t < |xs| && xs[t].Some? ==> r.value <= xs[t].value
  {
    if xs == [] then None
    else
      var r := MinDefined(xs[..|xs| - 1]);
      var x := xs[|xs| - 1];
      assert forall t :: 0 <= t < |xs| - 1 ==> xs[..|xs| - 1][t] == xs[t];
      if x.None? then r
      else if r.None? || x.value < r.value then x
      else r
  }

  /** `float(drawdown.min())`. */
  function MaxDrawdown(pr: seq<real>): Option<real> {
    MinDefined(Drawdowns(pr))
  }

  lemma ProductPositive(a: real, b: real)
    requires a > 0.0 && b > 0.0
    ensures a * b > 0.0
  {
  }

  lemma {:induction false} CumulativePositive(pr: seq<real>, t: nat)
    requires forall i :: 0 <= i < |pr| ==> pr[i] > -1.0
    requires t < |pr|
    ensures Cumulative(pr)[t] > 0.0
  {
    if t > 0 {
      CumulativePositive(pr, t - 1);
      CumulativeAt(pr, t);
      ProductPositive(Cumulative(pr)[t - 1], 1.0 + pr[t]);
    }
  }

  /**
   * While no daily loss reaches 100% the cumulative index stays positive,
   * so the maximum drawdown exists and is at most 0.
   */
  lemma {:induction false} MaxDrawdownNonPositive(pr: seq<real>)
    requires pr != []
    requires forall i :: 0 <= i < |pr| ==> pr[i] > -1.0
    ensures MaxDrawdown(pr).Some? && MaxDrawdown(pr).value <= 0.0
  {
    var d := Drawdowns(pr);
    forall t | 0 <= t < |pr|
      ensures d[t].Some? && d[t].value <= 0.0
    {
      DrawdownAt(pr, t);
    }
    assert d[0].Some?;
  }

  /** One day's drawdown is defined and at most 0 while the index is positive. */
  lemma {:induction false} DrawdownAt(pr: seq<real>, t: nat)
    requires forall i :: 0 <= i < |pr| ==> pr[i] > -1.0
    requires t < |pr|
    ensures Drawdowns(pr)[t].Some? && Drawdowns(pr)[t].value <= 0.0
  {
    var c := Cumulative(pr);
    var m := RunningMax(c);
    CumulativePositive(pr, t);
    assert c[..t + 1][t] == c[t];
    NonPositiveQuotient(c[t] - m[t], m[t]);
  }

  /** On a day that sets a new high the drawdown is 0. */
  lemma {:induction false} DrawdownAtPeak(pr: seq<real>, t: nat)
    requires t < |pr| && Cumulative(pr)[t] == RunningMax(Cumulative(pr))[t] != 0.0
    ensures Drawdowns(pr)[t] == Some(0.0)
  {
  }

  /** While the index stays positive, a drawdown loses less than everything: it lies in (-1, 0]. */
  lemma {:induction false} DrawdownBounds(pr: seq<real>, t: nat)
    requires forall i :: 0 <= i < |pr| ==> pr[i] > -1.0
    requires t < |pr|
    ensures -1.0 < Drawdowns(pr)[t].value <= 0.0
  {
    DrawdownAt(pr, t);
    var c, m := Cumulative(pr), RunningMax(Cumulative(pr));
    CumulativePositive(pr, t);
    RunningMaxIsPeak(c, t, t);
    assert c[t] > 0.0 && m[t] > 0.0;
    assert Drawdowns(pr)[t] == Some((c[t] - m[t]) / m[t]);
    QuotientAboveMinusOne(c[t], m[t]);
  }

  lemma QuotientAboveMinusOne(c: real, m: real)
    requires c > 0.0 && m > 0.0
    ensures (c - m) / m > -1.0
  {
    var q := (c - m) / m;
    assert q * m == c - m;
    assert (q + 1.0) * m == c;
    SignOfProduct(q + 1.0, m);
  }

  /** With a positive factor, a product is positive exactly when the other factor is. */
  lemma SignOfProduct(x: real, y: real)
    requires y > 0.0
    ensures x > 0.0 <==> x * y > 0.0
  {
  }

  lemma NonPositiveQuotient(q: real, d: real)
    requires q <= 0.0 && d > 0.0
    ensures q / d <= 0.0
  {
  }

  lemma {:induction false} CumulativeNonDecreasing(pr: seq<real>, t: nat)
    requires forall i :: 0 <= i < |pr| ==> pr[i] >= 0.0
    requires t < |pr|
    ensures Cumulative(pr)[t] >= 1.0
    ensures forall s :: 0 <= s <= t ==> Cumulative(pr)[s] <= Cumulative(pr)[t]
  {
    if t > 0 {
      CumulativeNonDecreasing(pr, t - 1);
      CumulativeStep(pr, t);
    }
  }

  /** A day without a loss does not lower an index that is at least 1. */
  lemma {:induction false} CumulativeStep(pr: seq<real>, t: nat)
    requires 0 < t < |pr| && pr[t] >= 0.0 && Cumulative(pr)[t - 1] >= 1.0
    ensures Cumulative(pr)[t - 1] <= Cumulative(pr)[t]
  {
    CumulativeAt(pr, t);
    Growth(Cumulative(pr)[t - 1], pr[t]);
  }

  lemma Growth(x: real, g: real)
    requires x >= 1.0 && g >= 0.0
    ensures x * (1.0 + g) >= x
  {
    assert x * (1.0 + g) == x + x * g;
  }

  /** With no losing day the index never falls below its running maximum: the maximum drawdown is 0. */
  lemma {:induction false} MaxDrawdownWithoutLosses(pr: seq<real>)
    requires pr != []
    requires forall i :: 0 <= i < |pr| ==> pr[i] >= 0.0
    ensures MaxDrawdown(pr) == Some(0.0)
  {
    var d := Drawdowns(pr);
    forall t | 0 <= t < |pr|
      ensures d[t] == Some(0.0)
    {
      NoDrawdownAt(pr, t);
    }
    assert d[0].Some?;
  }

  /** With no losing day, each day's index is its running maximum. */
  lemma {:induction false} NoDrawdownAt(pr: seq<real>, t: nat)
    requires forall i :: 0 <= i < |pr| ==> pr[i] >= 0.0
    requires t < |pr|
    ensures Drawdowns(pr)[t] == Some(0.0)
  {
    var c, m := Cumulative(pr), RunningMax(Cumulative(pr));
    CumulativeNonDecreasing(pr, t);
    var prefix := c[..t + 1];
    assert forall s :: 0 <= s < |prefix| ==> prefix[s] == c[s];
    assert m[t] == c[t];
  }

  /** `returns[returns < target]`, in order. */
  function Below(pr: seq<real>, target: real): (b: seq<real>)
    ensures |b| <= |pr|
    ensures forall i :: 0 <= i < |b| ==> b[i] < target && b[i] in pr
    ensures forall i :: 0 <= i < |pr| && pr[i] < target ==> pr[i] in b
  {
    if pr == [] then []
    else
      var b := Below(pr[..|pr| - 1], target);
      assert forall x :: x in pr[..|pr| - 1] ==> x in pr;
      assert forall i :: 0 <= i < |pr| - 1 ==> pr[..|pr| - 1][i] == pr[i];
      if pr[|pr| - 1] < target then b + [pr[|pr| - 1]] else b
  }

  /** The selection holds each below-target return as many times as the returns do, and nothing else. */
  lemma {:induction false} BelowCount(pr: seq<real>, target: real)
    ensures forall x :: multiset(Below(pr, target))[x] == if x < target then multiset(pr)[x] else 0
    decreases |pr|
  {
    if pr != [] {
      var init, last := pr[..|pr| - 1], pr[|pr| - 1];
      BelowCount(init, target);
      assert pr == init + [last];
      BelowSnoc(init, last, target);
    }
  }

  /** Appending one return appends it to the selection exactly when it is below the target. */
  lemma {:induction false} BelowSnoc(pr: seq<real>, x: real, target: real)
    ensures Below(pr + [x], target) == Below(pr, target) + (if x < target then [x] else [])
  {
    assert (pr + [x])[..|pr|] == pr;
  }

  /** Filtering distributes over concatenation, so the below-target returns keep their order. */
  lemma {:induction false} BelowAppend(a: seq<real>, c: seq<real>, target: real)
    ensures Below(a + c, target) == Below(a, target) + Below(c, target)
    decreases |c|
  {
    if c == [] {
      assert a + c == a;
    } else {
      var c', x := c[..|c| - 1], c[|c| - 1];
      var tail := if x < target then [x] else [];
      assert a + c == (a + c') + [x];
      assert c == c' + [x];
      calc {
        Below(a + c, target);
        { BelowSnoc(a + c', x, target); }
        Below(a + c', target) + tail;
        { BelowAppend(a, c', target); }
        (Below(a, target) + Below(c', target)) + tail;
        Below(a, target) + (Below(c', target) + tail);
        { BelowSnoc(c', x, target); }
        Below(a, target) + Below(c, target);
      }
    }
  }

  /** A single return is kept exactly when it is below the target. */
  lemma {:induction false} BelowSingle(x: real, target: real)
    ensures Below([x], target) == if x < target then [x] else []
  {
    assert [x][..0] == [];
  }

  /** `downside ** 2`: each return squared. */
  function Squares(b: seq<real>): (sq: seq<real>)
    ensures |sq| == |b| && forall i :: 0 <= i < |b| ==> sq[i] == b[i] * b[i]
  {
    seq(|b|, i requires 0 <= i < |b| => b[i] * b[i])
  }

  /**
   * `_downside_deviation`: 0 when no return is below the target; otherwise
   * the annualised root mean square of exactly the below-target returns.
   */
  function DownsideDeviation(pr: seq<real>, target: real, sqrt: real -> real): (r: real)
    ensures (forall i :: 0 <= i < |pr| ==> pr[i] >= target) ==> r == 0.0
    ensures (exists i :: 0 <= i < |pr| && pr[i] < target) ==>
              var b := Below(pr, target);
              |b| > 0 && r == sqrt(Mean(Squares(b))) * sqrt(TradingDays)
  {
    var b := Below(pr, target);
    if |b| == 0 then 0.0
    else sqrt(Mean(Squares(b))) * sqrt(TradingDays)
  }

  /** With a square root that is never negative, the downside deviation is never negative. */
  lemma {:induction false} DownsideDeviationNonNegative(pr: seq<real>, target: real, sqrt: real -> real)
    requires forall x :: sqrt(x) >= 0.0
    ensures DownsideDeviation(pr, target, sqrt) >= 0.0
  {
    var b := Below(pr, target);
    if |b| > 0 {
      var s := sqrt(Mean(Squares(b)));
      assert s >= 0.0 && sqrt(TradingDays) >= 0.0;
    }
  }

  datatype RiskMetrics = RiskMetrics(var95: real, maxDrawdown: Option<real>, downsideDeviation: real)

  /** `_risk_metrics`. */
  function RiskMetricsOf(daily: seq<seq<real>>, k: nat, w: seq<real>, sqrt: real -> real,
                         percentile: (seq<real>, real) -> real): (r: RiskMetrics)
    requires Rect(daily, k) && |w| == k
  {
    var pr := PortfolioReturns(daily, k, w);
    RiskMetrics(percentile(pr, 5.0) * sqrt(TradingDays), MaxDrawdown(pr), DownsideDeviation(pr, 0.0, sqrt))
  }

  // ---------------------------------------------------------------- the optimizer object

  datatype AssetStat = AssetStat(weight: real, expectedReturn: Option<real>, volatility: Option<real>)

  datatype Optimization = Optimization(symbols: seq<string>, weights: map<string, real>, portfolioStats: Stats,
                                       assetStats: map<string, AssetStat>, riskMetrics: RiskMetrics,
                                       generatedAt: string)

  /** The first column named `name` (`returns[sym]`), or None where pandas raises KeyError. */
  function ColumnIndex(columns: seq<string>, name: string): (r: Option<nat>)
    ensures r.None? <==> name !in columns
    ensures r.Some? ==> r.value < |columns| && columns[r.value] == name
  {
    if columns == [] then None
    else if columns[0] == name then Some(0)
    else match ColumnIndex(columns[1..], name)
      case Some(i) => Some(i + 1)
      case None => None
  }

  /** The `asset_stats` entry for the asset in column j. */
  function AssetStatOf(daily: seq<seq<real>>, k: nat, j: nat, weight: real, sqrt: real -> real): AssetStat
    requires Rect(daily, k) && j < k
  {
    var r := Column(daily, k, j);
    var m := if r == [] then None else Some(Mean(r) * TradingDays);
    var std := if |r| < 2 then None
               else Some(sqrt(Sum(seq(|r|, t requires 0 <= t < |r| => (r[t] - Mean(r)) * (r[t] - Mean(r))))
                               / (|r| as real - 1.0)));
    AssetStat(weight, m, if std.Some? then Some(std.value * sqrt(TradingDays)) else None)
  }

  /** `asset_stats` after the loop over `symbols`: None where a symbol has no column. */
  function AssetStats(symbols: seq<string>, columns: seq<string>, daily: seq<seq<real>>,
                      x: seq<real>, sqrt: real -> real): Option<map<string, AssetStat>>
    requires Rect(daily, |columns|) && |x| >= |symbols|
  {
    if symbols == [] then Some(map[])
    else
      var n := |symbols| - 1;
      match AssetStats(symbols[..n], columns, daily, x, sqrt)
      case None => None
      case Some(m) =>
        match ColumnIndex(columns, symbols[n])
        case None => None
        case Some(j) => Some(m[symbols[n] := AssetStatOf(daily, |columns|, j, x[n], sqrt)])
  }

  /** A symbol without a column stops the `asset_stats` loop, whatever follows it. */
  lemma {:induction false} AssetStatsMissing(symbols: seq<string>, i: nat, columns: seq<string>, daily: seq<seq<real>>,
                                             x: seq<real>, sqrt: real -> real)
    requires Rect(daily, |columns|) && |x| >= |symbols| && 0 < i <= |symbols|
    requires ColumnIndex(columns, symbols[i - 1]).None?
    ensures AssetStats(symbols, columns, daily, x, sqrt).None?
    decreases |symbols|
  {
    if i < |symbols| {
      AssetStatsMissing(symbols[..|symbols| - 1], i, columns, daily, x, sqrt);
    }
  }

  class PortfolioOptimizer {
    const riskFreeRate: real

    constructor (riskFreeRate: real)
      ensures this.riskFreeRate == riskFreeRate
    {
      this.riskFreeRate := riskFreeRate;
    }

    /**
     * `calculate_portfolio_stats`: the Sharpe ratio is the excess return per
     * unit of volatility when the volatility is positive, and exactly 0
     * otherwise, NaN volatility included.
     */
    function PortfolioStats(w: seq<real>, daily: seq<seq<real>>, k: nat, sqrt: real -> real): (s: Stats)
      requires Rect(daily, k) && |w| == k
      ensures s.annualReturn == AnnualReturn(daily, k, w) && s.volatility == AnnualVolatility(daily, k, w, sqrt)
      ensures s.volatility.Some? && s.volatility.value > 0.0 ==>
                s.sharpeRatio * s.volatility.value == s.annualReturn - riskFreeRate
      ensures !(s.volatility.Some? && s.volatility.value > 0.0) ==> s.sharpeRatio == 0.0
      ensures daily == [] ==> s == Stats(0.0, None, 0.0)
    {
      var ret := AnnualReturn(daily, k, w);
      var vol := AnnualVolatility(daily, k, w, sqrt);
      Stats(ret, vol, if vol.Some? && vol.value > 0.0 then (ret - riskFreeRate) / vol.value else 0.0)
    }

    /** `get_historical_data`: tries the requested period, then "1y", then "6mo". */
    method GetHistoricalData(symbols: seq<string>, period: string, yfAvailable: bool,
                             download: (seq<string>, string) -> Option<Download>)
      returns (prices: Option<PriceFrame>)
      ensures prices == HistoricalData(symbols, period, yfAvailable, download)
      ensures prices.Some? ==> prices.value.rows != [] && Rect(prices.value.rows, |prices.value.columns|)
    {
      if !yfAvailable || symbols == [] {
        return None;
      }
      var periods := Periods(period);
      ghost var attempts := Attempts(symbols, period, download);
      var i := 0;
      while i < |periods|
        invariant 0 <= i <= 3
        invariant forall k :: 0 <= k < i ==> attempts[k].None?
      {
        var frame := Usable(download(symbols, periods[i]), symbols);
        if frame.Some? {
          assert attempts[i] == frame;
          return frame;
        }
        i := i + 1;
      }
      return None;
    }

    /**
     * What `optimize` returns for the price frame it fetched: an error when
     * the solver does not succeed (there is no equal-weight fallback), and
     * otherwise the solver's weights, keyed by symbol, with the portfolio
     * statistics, per-asset figures and risk metrics of those weights.
     * (A frame whose width differs from the symbol count, or a symbol
     * without a column, makes numpy or pandas raise.)
     */
    ghost predicate Optimized(r: Result<Optimization>, symbols: seq<string>, prices: PriceFrame,
                              riskTolerance: string, target: Option<real>,
                              solve: (Problem, seq<seq<real>>) -> SolverResult,
                              sqrt: real -> real, percentile: (seq<real>, real) -> real, now: string)
      requires symbols != [] && Rect(prices.rows, |prices.columns|)
    {
      var k := |prices.columns|;
      var daily := Returns(prices.rows, k);
      var result := solve(SetUp(|symbols|, riskTolerance, target, riskFreeRate), daily);
      && (r.Ok? ==>
            k == |symbols| && result.success && |result.x| == k
            && r.value.symbols == symbols
            && r.value.weights == ZipMap(symbols, result.x)
            && r.value.portfolioStats == PortfolioStats(result.x, daily, k, sqrt)
            && Some(r.value.assetStats) == AssetStats(symbols, prices.columns, daily, result.x, sqrt)
            && r.value.riskMetrics == RiskMetricsOf(daily, k, result.x, sqrt, percentile)
            && r.value.generatedAt == now)
      && (k == |symbols| && !result.success ==> r == Err("Optimization failed: " + result.message))
      && (k == |symbols| && result.success && |result.x| == k ==>
            (r.Ok? <==> AssetStats(symbols, prices.columns, daily, result.x, sqrt).Some?))
    }

    /**
     * `optimize`: no prices is an error; otherwise the solver runs on the
     * problem `SetUp` describes over the frame's daily returns.
     */
    method Optimize(symbols: seq<string>, riskTolerance: string, target: Option<real>, yfAvailable: bool,
                    download: (seq<string>, string) -> Option<Download>,
                    solve: (Problem, seq<seq<real>>) -> SolverResult,
                    sqrt: real -> real, percentile: (seq<real>, real) -> real, now: string)
      returns (r: Result<Optimization>)
      ensures HistoricalData(symbols, "2y", yfAvailable, download).None? ==>
                r == Err("Price data unavailable for symbols")
      ensures HistoricalData(symbols, "2y", yfAvailable, download).Some? ==>
                Optimized(r, symbols, HistoricalData(symbols, "2y", yfAvailable, download).value,
                          riskTolerance, target, solve, sqrt, percentile, now)
    {
      var prices := GetHistoricalData(symbols, "2y", yfAvailable, download);
      if prices.None? {
        return Err("Price data unavailable for symbols");
      }
      r := OptimizeOver(symbols, prices.value, riskTolerance, target, solve, sqrt, percentile, now);
    }

    /** The per-asset loop of `optimize`; a symbol missing from the frame raises KeyError (None). */
    method CollectAssetStats(symbols: seq<string>, columns: seq<string>, daily: seq<seq<real>>,
                             x: seq<real>, sqrt: real -> real)
      returns (r: Option<map<string, AssetStat>>)
      requires Rect(daily, |columns|) && |x| >= |symbols|
      ensures r == AssetStats(symbols, columns, daily, x, sqrt)
    {
      var assetStats: map<string, AssetStat> := map[];
      var i := 0;
      while i < |symbols|
        invariant 0 <= i <= |symbols|
        invariant AssetStats(symbols[..i], columns, daily, x, sqrt) == Some(assetStats)
      {
        assert symbols[..i + 1][..i] == symbols[..i];
        var j := ColumnIndex(columns, symbols[i]);
        if j.None? {
          AssetStatsMissing(symbols, i + 1, columns, daily, x, sqrt);
          return None;
        }
        assetStats := assetStats[symbols[i] := AssetStatOf(daily, |columns|, j.value, x[i], sqrt)];
        i := i + 1;
      }
      assert symbols[..|symbols|] == symbols;
      r := Some(assetStats);
    }

    /** The body of `optimize` after the prices are in. */
    method OptimizeOver(symbols: seq<string>, prices: PriceFrame, riskTolerance: string, target: Option<real>,
                        solve: (Problem, seq<seq<real>>) -> SolverResult,
                        sqrt: real -> real, percentile: (seq<real>, real) -> real, now: string)
      returns (r: Result<Optimization>)
      requires symbols != [] && Rect(prices.rows, |prices.columns|)
      ensures Optimized(r, symbols, prices, riskTolerance, target, solve, sqrt, percentile, now)
    {
      var k := |prices.columns|;
      var daily := Returns(prices.rows, k);
      if k != |symbols| {
        return Err("operands could not be broadcast together");
      }
      var problem := SetUp(|symbols|, riskTolerance, target, riskFreeRate);
      var result := solve(problem, daily);
      if !result.success {
        return Err("Optimization failed: " + result.message);
      }
      if |result.x| != k {
        return Err("operands could not be broadcast together");
      }
      var x := result.x;
      var stats := PortfolioStats(x, daily, k, sqrt);
      var assetStats := CollectAssetStats(symbols, prices.columns, daily, x, sqrt);
      if assetStats.None? {
        return Err("KeyError");
      }
      var risk := RiskMetricsOf(daily, k, x, sqrt, percentile);
      r := Ok(Optimization(symbols, ZipMap(symbols, x), stats, assetStats.value, risk, now));
    }

    /**
     * What `efficient_frontier` returns for the price frame it fetched:
     * `count` random weightings, each normalised to a long-only vector
     * summing to 1, with their statistics at the same index.
     */
    ghost predicate Sampled(r: Result<Frontier>, symbols: seq<string>, prices: PriceFrame, count: nat,
                            draw: nat -> seq<real>, sqrt: real -> real)
      requires Rect(prices.rows, |prices.columns|) && UnitDraws(draw, |symbols|)
    {
      var k := |prices.columns|;
      var daily := Returns(prices.rows, k);
      && (count == 0 || k == |symbols| <==> r.Ok?)
      && (r.Ok? ==>
            |r.value.annualReturns| == count && |r.value.volatilities| == count
            && |r.value.sharpeRatios| == count
            && r.value.weights == Weightings(draw, |symbols|, count)
            && (forall i :: 0 <= i < count ==>
                  Sum(r.value.weights[i]) == 1.0
                  && forall j :: 0 <= j < k ==> 0.0 <= r.value.weights[i][j] <= 1.0)
            && (forall i :: 0 <= i < count ==>
                  Stats(r.value.annualReturns[i], r.value.volatilities[i], r.value.sharpeRatios[i])
                  == PortfolioStats(r.value.weights[i], daily, k, sqrt)))
    }

    /**
     * `efficient_frontier`: no prices is an error, and so is a negative
     * count (`np.zeros` refuses negative dimensions).
     */
    method EfficientFrontier(symbols: seq<string>, count: int, yfAvailable: bool,
                             download: (seq<string>, string) -> Option<Download>,
                             draw: nat -> seq<real>, sqrt: real -> real)
      returns (r: Result<Frontier>)
      requires symbols != [] ==> UnitDraws(draw, |symbols|)
      ensures HistoricalData(symbols, "2y", yfAvailable, download).None? ==>
                r == Err("Price data unavailable for symbols")
      ensures HistoricalData(symbols, "2y", yfAvailable, download).Some? && count < 0 ==>
                r == Err("negative dimensions are not allowed")
      ensures HistoricalData(symbols, "2y", yfAvailable, download).Some? && count >= 0 ==>
                Sampled(r, symbols, HistoricalData(symbols, "2y", yfAvailable, download).value, count, draw, sqrt)
    {
      var prices := GetHistoricalData(symbols, "2y", yfAvailable, download);
      if prices.None? {
        return Err("Price data unavailable for symbols");
      }
      if count < 0 {
        return Err("negative dimensions are not allowed");
      }
      r := SampleFrontier(symbols, prices.value, count, draw, sqrt);
    }

    /** The frontier's columns, unzipped from the statistics of each sampled weighting. */
    function FrontierOf(stats: seq<Stats>, weights: seq<seq<real>>): (f: Frontier)
      ensures |f.annualReturns| == |stats| && |f.volatilities| == |stats| && |f.sharpeRatios| == |stats|
      ensures f.weights == weights
      ensures forall m :: 0 <= m < |stats| ==>
                Stats(f.annualReturns[m], f.volatilities[m], f.sharpeRatios[m]) == stats[m]
    {
      Frontier(seq(|stats|, m requires 0 <= m < |stats| => stats[m].annualReturn),
               seq(|stats|, m requires 0 <= m < |stats| => stats[m].volatility),
               seq(|stats|, m requires 0 <= m < |stats| => stats[m].sharpeRatio),
               weights)
    }

    /** Index-wise statistics of the normalised draws make a sampled frontier. */
    lemma {:induction false} FrontierSampled(symbols: seq<string>, prices: PriceFrame, count: nat, draw: nat -> seq<real>,
                          sqrt: real -> real, stats: seq<Stats>)
      requires Rect(prices.rows, |prices.columns|) && UnitDraws(draw, |symbols|)
      requires count == 0 || |prices.columns| == |symbols|
      requires |stats| == count
      requires forall m :: 0 <= m < count ==>
                 stats[m] == PortfolioStats(Weightings(draw, |symbols|, count)[m], Returns(prices.rows, |prices.columns|),
                                            |prices.columns|, sqrt)
      ensures Sampled(Ok(FrontierOf(stats, Weightings(draw, |symbols|, count))), symbols, prices, count, draw, sqrt)
    {
      var ws := Weightings(draw, |symbols|, count);
      forall m | 0 <= m < count
        ensures Sum(ws[m]) == 1.0
        ensures forall j :: 0 <= j < |prices.columns| ==> 0.0 <= ws[m][j] <= 1.0
      {
        NormalizedIsWeighting(draw(m));
      }
    }

    /** The sampling part of `efficient_frontier`; the weightings only fit the frame when it has one column per symbol. */
    method SampleFrontier(symbols: seq<string>, prices: PriceFrame, count: nat,
                          draw: nat -> seq<real>, sqrt: real -> real)
      returns (r: Result<Frontier>)
      requires Rect(prices.rows, |prices.columns|) && UnitDraws(draw, |symbols|)
      ensures Sampled(r, symbols, prices, count, draw, sqrt)
    {
      var results, weights, ok := FillSamples(draw, |symbols|, count, Returns(prices.rows, |prices.columns|),
                                              |prices.columns|, sqrt);
      if !ok {
        return Err("operands could not be broadcast together");
      }
      FrontierSampled(symbols, prices, count, draw, sqrt, results[..]);
      r := Ok(FrontierOf(results[..], weights[..]));
    }

    /**
     * The sampling loop, filling the result arrays index by index; the
     * statistics of the first weighting raise when it does not fit the
     * `k` columns.
     */
    method FillSamples(draw: nat -> seq<real>, n: nat, count: nat, daily: seq<seq<real>>, k: nat, sqrt: real -> real)
      returns (results: array<Stats>, weights: array<seq<real>>, ok: bool)
      requires Rect(daily, k) && UnitDraws(draw, n)
      ensures ok <==> count == 0 || k == n
      ensures ok ==> results.Length == count && weights[..] == Weightings(draw, n, count)
      ensures ok ==> forall m :: 0 <= m < count ==> results[m] == PortfolioStats(weights[m], daily, k, sqrt)
    {
      results := new Stats[count];
      weights := new seq<real>[count];
      var i := 0;
      while i < count
        invariant 0 <= i <= count
        invariant i > 0 ==> k == n
        invariant forall m :: 0 <= m < i ==> weights[m] == Normalize(draw(m))
                                             && results[m] == PortfolioStats(Normalize(draw(m)), daily, k, sqrt)
      {
        DrawAt(draw, n, i);
        var w := Sample(draw(i));
        if k != n {
          return results, weights, false;
        }
        weights[i] := w;
        results[i] := PortfolioStats(w, daily, k, sqrt);
        i := i + 1;
      }
      assert weights[..] == Weightings(draw, n, count);
      ok := true;
    }
  }

  /** `w = np.random.random(num); w /= np.sum(w)`, for the draw `d`. */
  method Sample(d: seq<real>) returns (weights: seq<real>)
    requires Sum(d) != 0.0
    ensures weights == Normalize(d)
  {
    var w := new real[|d|];
    forall j | 0 <= j < |d| {
      w[j] := d[j];
    }
    assert w[..] == d;
    NormalizeInPlace(w);
    weights := w[..];
  }

  /** `w /= np.sum(w)`, in place. */
  method NormalizeInPlace(w: array<real>)
    requires Sum(w[..]) != 0.0
    modifies w
    ensures w[..] == Normalize(old(w[..]))
  {
    var total := Sum(w[..]);
    ghost var v := w[..];
    var j := 0;
    while j < w.Length
      invariant 0 <= j <= w.Length
      invariant forall i :: 0 <= i < j ==> w[i] == v[i] / total
      invariant forall i :: j <= i < w.Length ==> w[i] == v[i]
    {
      w[j] := w[j] / total;
      j := j + 1;
    }
  }
}
