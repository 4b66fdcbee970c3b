/**
 * The technical-sentiment pipeline of the market sentiment analyzer:
 * forward-return labels, RSI, MACD, the feature table, and the classifier
 * object whose state only training changes.
 *
 * A pandas series that may hold NaN is a `seq<Option<real>>` or a function
 * `day -> Option<real>`; a price history is the frame the fetchers return,
 * given here as an input. The scaler and the random forest are deterministic
 * (fixed seeds), so their fitted state is recorded as the samples they were
 * fitted on, and their numeric behaviour is a set of opaque functions.
 */
module SentimentAnalyzer {
  import opened Maybe
  import opened RealSeq
  import PyText
  import opened PyDict

  datatype Label = Positive | Negative | Neutral

  const ForwardDays: nat := 5
  const PositiveThreshold: real := 0.02
  const NegativeThreshold: real := -0.02
  const RsiWindow: nat := 14
  const RollingWindow: nat := 20
  const MinAlignedRows: nat := 30

  /** One row of a price history: its close and its volume (NaN when missing). */
  datatype PriceRow = PriceRow(close: real, volume: Option<real>)

  /** A price frame, oldest day first; `hasVolume` says whether it has a Volume column at all. */
  datatype History = History(rows: seq<PriceRow>, hasVolume: bool)

  function Closes(rows: seq<PriceRow>): (c: seq<real>)
    ensures |c| == |rows| && forall i :: 0 <= i < |rows| ==> c[i] == rows[i].close
  {
    seq(|rows|, i requires 0 <= i < |rows| => rows[i].close)
  }

  /** `a / b` where pandas gives a finite value; a zero divisor is undefined here. */
  function Quotient(a: real, b: real): Option<real> {
    if b != 0.0 then Some(a / b) else None
  }

  // ---------------------------------------------------------------- labels

  /** `close.shift(-5) / close - 1.0` on day i. */
  function ForwardReturn(close: seq<real>, i: nat): Option<real>
    requires i < |close|
  {
    if i + ForwardDays < |close| then
      match Quotient(close[i + ForwardDays], close[i])
      case Some(q) => Some(q - 1.0)
      case None => None
    else None
  }

  /**
   * The three label masks applied to a defined forward return: above +2% is
   * positive, below -2% negative, the closed band between them neutral.
   */
  function LabelOf(f: real): (l: Option<Label>)
    ensures l.Some?
    ensures l == Some(Positive) <==> f > PositiveThreshold
    ensures l == Some(Negative) <==> f < NegativeThreshold
    ensures l == Some(Neutral) <==> NegativeThreshold <= f <= PositiveThreshold
  {
    if f > PositiveThreshold then Some(Positive)
    else if f < NegativeThreshold then Some(Negative)
    else if NegativeThreshold <= f <= PositiveThreshold then Some(Neutral)
    else None
  }

  /** `_labels_from_close(close)[i]`: NaN where the forward return is undefined. */
  function LabelAt(close: seq<real>, i: nat): (l: Option<Label>)
    requires i < |close|
    ensures l.Some? <==> ForwardReturn(close, i).Some?
  {
    match ForwardReturn(close, i)
    case Some(f) => LabelOf(f)
    case None => None
  }

  /** `_labels_from_close(close)`: one entry per day. */
  function Labels(close: seq<real>): (ls: seq<Option<Label>>)
    ensures |ls| == |close| && forall i :: 0 <= i < |close| ==> ls[i] == LabelAt(close, i)
  {
    seq(|close|, i requires 0 <= i < |close| => LabelAt(close, i))
  }

  /**
   * Exactly the days with a price five days ahead (and a non-zero close) are
   * labelled: the last five days of every series never are.
   */
  lemma {:induction false} LabelledDays(close: seq<real>, i: nat)
    requires i < |close|
    ensures Labels(close)[i].Some? <==> i + ForwardDays < |close| && close[i] != 0.0
    ensures |close| - ForwardDays <= i ==> Labels(close)[i] == None
  {
  }

  // ---------------------------------------------------------------- RSI

  /** `delta.where(delta > 0, 0)`: the NaN first difference becomes 0 as well. */
  function Gains(close: seq<real>): (g: seq<real>)
    ensures |g| == |close|
    ensures forall i :: 0 <= i < |close| ==> g[i] >= 0.0
  {
    seq(|close|, i requires 0 <= i < |close| =>
      if i > 0 && close[i] - close[i - 1] > 0.0 then close[i] - close[i - 1] else 0.0)
  }

  /** `-delta.where(delta < 0, 0)`. */
  function Losses(close: seq<real>): (l: seq<real>)
    ensures |l| == |close|
    ensures forall i :: 0 <= i < |close| ==> l[i] >= 0.0
  {
    seq(|close|, i requires 0 <= i < |close| =>
      if i > 0 && close[i] - close[i - 1] < 0.0 then close[i - 1] - close[i] else 0.0)
  }

  /** `xs.rolling(window=w).mean()` at day i, for a series without NaN. */
  function RollingMean(xs: seq<real>, i: nat, w: nat): Option<real>
    requires i < |xs| && w > 0
  {
    if i + 1 >= w then Some(Mean(xs[i + 1 - w..i + 1])) else None
  }

  /** A rolling mean of non-negative values is non-negative. */
  lemma {:induction false} RollingMeanNonNegative(xs: seq<real>, i: nat, w: nat)
    requires i < |xs| && w > 0
    requires forall k :: 0 <= k < |xs| ==> xs[k] >= 0.0
    ensures RollingMean(xs, i, w).Some? ==> RollingMean(xs, i, w).value >= 0.0
  {
    if i + 1 >= w {
      var win := xs[i + 1 - w..i + 1];
      assert forall k :: 0 <= k < |win| ==> win[k] == xs[i + 1 - w + k];
      SumNonNegative(win);
    }
  }

  /**
   * `100 - 100 / (1 + gain / loss)`: in [0, 100) when the mean loss is
   * positive; gain / 0 is +inf in pandas, giving 100; 0 / 0 is NaN.
   */
  function RsiOf(gain: real, loss: real): (r: Option<real>)
    requires gain >= 0.0 && loss >= 0.0
    ensures loss > 0.0 ==> r.Some? && 0.0 <= r.value < 100.0
    ensures loss == 0.0 && gain > 0.0 ==> r == Some(100.0)
    ensures loss == 0.0 && gain == 0.0 ==> r == None
  {
    if loss != 0.0 then
      var rs := gain / loss;
      assert 1.0 + rs >= 1.0;
      Some(100.0 - 100.0 / (1.0 + rs))
    else if gain != 0.0 then Some(100.0)
    else None
  }

  /** `_calc_rsi(close)[i]` with the default 14-day window. */
  function Rsi(close: seq<real>, i: nat): (r: Option<real>)
    requires i < |close|
    ensures r.Some? ==> i + 1 >= RsiWindow && 0.0 <= r.value <= 100.0
  {
    var g := RollingMean(Gains(close), i, RsiWindow);
    var l := RollingMean(Losses(close), i, RsiWindow);
    RollingMeanNonNegative(Gains(close), i, RsiWindow);
    RollingMeanNonNegative(Losses(close), i, RsiWindow);
    if g.Some? && l.Some? then RsiOf(g.value, l.value) else None
  }

  /**
   * RSI is defined from day 13 on (the NaN first difference counts as a zero
   * gain and loss), and lies in [0, 100) whenever the window saw a loss.
   */
  lemma {:induction false} RsiRange(close: seq<real>, i: nat)
    requires RsiWindow <= i + 1 <= |close|
    requires Mean(Losses(close)[i + 1 - RsiWindow..i + 1]) > 0.0
    ensures Rsi(close, i).Some? && Rsi(close, i).value < 100.0
  {
    RollingMeanNonNegative(Gains(close), i, RsiWindow);
  }

  // ---------------------------------------------------------------- MACD

  /** 1 - alpha for `ewm(span=s)`, where alpha = 2 / (s + 1). */
  function Decay(span: nat): (b: real)
    requires span >= 1
    ensures 0.0 <= b < 1.0
  {
    (span as real - 1.0) / (span as real + 1.0)
  }

  /** Numerator of the adjusted EMA: the sum of decay^k * x[t - k]. */
  function EwmNumerator(xs: seq<real>, t: nat, b: real): real
    requires t < |xs|
  {
    if t == 0 then xs[0] else xs[t] + b * EwmNumerator(xs, t - 1, b)
  }

  /** Denominator of the adjusted EMA: the sum of decay^k. */
  function EwmWeight(t: nat, b: real): (d: real)
    requires 0.0 <= b
    ensures d >= 1.0
  {
    if t == 0 then 1.0 else 1.0 + b * EwmWeight(t - 1, b)
  }

  /** `xs.ewm(span=span).mean()` (pandas' default adjust=True) for a series without NaN. */
  function Ewm(xs: seq<real>, span: nat): (e: seq<real>)
    requires span >= 1
    ensures |e| == |xs|
  {
    var b := Decay(span);
    seq(|xs|, t requires 0 <= t < |xs| => EwmNumerator(xs, t, b) / EwmWeight(t, b))
  }

  /** One EMA step keeps the numerator between `lo` and `hi` times the weight. */
  lemma EwmStep(x: real, b: real, n: real, w: real, lo: real, hi: real)
    requires 0.0 <= b && lo <= x <= hi && lo * w <= n <= hi * w
    ensures lo * (1.0 + b * w) <= x + b * n <= hi * (1.0 + b * w)
  {
    assert b * (lo * w) <= b * n;
    assert b * n <= b * (hi * w);
    assert lo * (1.0 + b * w) == lo + b * (lo * w);
    assert hi * (1.0 + b * w) == hi + b * (hi * w);
  }

  lemma {:induction false} EwmNumeratorBounds(xs: seq<real>, t: nat, b: real, lo: real, hi: real)
    requires t < |xs| && 0.0 <= b
    requires forall k :: 0 <= k <= t ==> lo <= xs[k] <= hi
    ensures lo * EwmWeight(t, b) <= EwmNumerator(xs, t, b) <= hi * EwmWeight(t, b)
  {
    if t == 0 {
      EwmBase(xs, b, lo, hi);
    } else {
      EwmNumeratorBounds(xs, t - 1, b, lo, hi);
      EwmStepAt(xs, t, b, lo, hi);
    }
  }

  /** The base case of EwmNumeratorBounds: the first value alone, with weight 1. */
  lemma EwmBase(xs: seq<real>, b: real, lo: real, hi: real)
    requires 0 < |xs| && 0.0 <= b && lo <= xs[0] <= hi
    ensures lo * EwmWeight(0, b) <= EwmNumerator(xs, 0, b) <= hi * EwmWeight(0, b)
  {
    assert EwmWeight(0, b) == 1.0 && EwmNumerator(xs, 0, b) == xs[0];
  }

  /** The inductive step of EwmNumeratorBounds, stated without its quantifier. */
  lemma EwmStepAt(xs: seq<real>, t: nat, b: real, lo: real, hi: real)
    requires 0 < t < |xs| && 0.0 <= b && lo <= xs[t] <= hi
    requires lo * EwmWeight(t - 1, b) <= EwmNumerator(xs, t - 1, b) <= hi * EwmWeight(t - 1, b)
    ensures lo * EwmWeight(t, b) <= EwmNumerator(xs, t, b) <= hi * EwmWeight(t, b)
  {
    var n, w := EwmNumerator(xs, t - 1, b), EwmWeight(t - 1, b);
    assert EwmNumerator(xs, t, b) == xs[t] + b * n;
    assert EwmWeight(t, b) == 1.0 + b * w;
    EwmStep(xs[t], b, n, w, lo, hi);
  }

  lemma DivideBounds(n: real, w: real, lo: real, hi: real)
    requires w > 0.0 && lo * w <= n <= hi * w
    ensures lo <= n / w <= hi
  {
    assert n / w * w == n;
  }

  /** An exponential moving average stays within the range of the values seen so far. */
  lemma {:induction false} EwmWithinRange(xs: seq<real>, span: nat, t: nat, lo: real, hi: real)
    requires span >= 1 && t < |xs|
    requires forall k :: 0 <= k <= t ==> lo <= xs[k] <= hi
    ensures lo <= Ewm(xs, span)[t] <= hi
  {
    var b := Decay(span);
    EwmNumeratorBounds(xs, t, b, lo, hi);
    EwmAt(xs, span, t, lo, hi);
  }

  /** The EMA on day `t` is the numerator over the weight, so bounds on the numerator carry over. */
  lemma {:induction false} EwmAt(xs: seq<real>, span: nat, t: nat, lo: real, hi: real)
    requires span >= 1 && t < |xs|
    requires lo * EwmWeight(t, Decay(span)) <= EwmNumerator(xs, t, Decay(span)) <= hi * EwmWeight(t, Decay(span))
    ensures lo <= Ewm(xs, span)[t] <= hi
  {
    var n, w := EwmNumerator(xs, t, Decay(span)), EwmWeight(t, Decay(span));
    assert Ewm(xs, span)[t] == n / w;
    DivideBounds(n, w, lo, hi);
  }

  /** `_calc_macd(close)[0]`: EMA(12) - EMA(26). */
  function Macd(close: seq<real>): (m: seq<real>)
    ensures |m| == |close|
    ensures forall i :: 0 <= i < |close| ==> m[i] == Ewm(close, 12)[i] - Ewm(close, 26)[i]
  {
    var fast, slow := Ewm(close, 12), Ewm(close, 26);
    seq(|close|, i requires 0 <= i < |close| => fast[i] - slow[i])
  }

  /** `_calc_macd(close)[1]`: EMA(9) of the MACD line. */
  function MacdSignal(close: seq<real>): (s: seq<real>)
    ensures |s| == |close|
  {
    Ewm(Macd(close), 9)
  }

  /** The signal line stays within the range the MACD line has taken so far. */
  lemma {:induction false} MacdSignalWithinRange(close: seq<real>, t: nat, lo: real, hi: real)
    requires t < |close|
    requires forall k :: 0 <= k <= t ==> lo <= Macd(close)[k] <= hi
    ensures lo <= MacdSignal(close)[t] <= hi
  {
    EwmWithinRange(Macd(close), 9, t, lo, hi);
  }

  /** A flat price history has a zero MACD line and a zero signal line. */
  lemma {:induction false} FlatMacd(close: seq<real>, c: real, i: nat)
    requires i < |close|
    requires forall k :: 0 <= k < |close| ==> close[k] == c
    ensures Macd(close)[i] == 0.0 && MacdSignal(close)[i] == 0.0
  {
    forall t | 0 <= t < |close|
      ensures Macd(close)[t] == 0.0
    {
      EwmWithinRange(close, 12, t, c, c);
      EwmWithinRange(close, 26, t, c, c);
    }
    EwmWithinRange(Macd(close), 9, i, 0.0, 0.0);
  }

  // ---------------------------------------------------------------- features

  /** `close.pct_change(k)` on day i. */
  function PctChange(close: seq<real>, i: nat, k: nat): Option<real>
    requires i < |close|
  {
    if i >= k then
      match Quotient(close[i], close[i - k])
      case Some(q) => Some(q - 1.0)
      case None => None
    else None
  }

  /** The sample variance (ddof = 1) of a window of at least two values. */
  function SampleVariance(xs: seq<real>): real
    requires |xs| >= 2
  {
    var m := Mean(xs);
    Sum(seq(|xs|, k requires 0 <= k < |xs| => (xs[k] - m) * (xs[k] - m))) / (|xs| as real - 1.0)
  }

  /** `close.rolling(window=20).std()` on day i, with `sqrt` the library square root. */
  function Volatility(close: seq<real>, i: nat, sqrt: real -> real): Option<real>
    requires i < |close|
  {
    if i + 1 >= RollingWindow then Some(sqrt(SampleVariance(close[i + 1 - RollingWindow..i + 1]))) else None
  }

  /** `data['Volume'].rolling(window=20).mean()` is defined on day i (a NaN volume spoils its window). */
  predicate VolumeSmaDefined(rows: seq<PriceRow>, i: nat)
    requires i < |rows|
  {
    i + 1 >= RollingWindow && forall k :: i + 1 - RollingWindow <= k <= i ==> rows[k].volume.Some?
  }

  datatype FeatureRow = FeatureRow(rsi: real, macd: real, change1d: real, change5d: real,
                                   change20d: real, volatility: real)

  /** The six feature columns of a day, in order, as `_features_from_history` selects them. */
  function Columns(f: FeatureRow): (c: seq<real>)
    ensures |c| == 6
  {
    [f.rsi, f.macd, f.change1d, f.change5d, f.change20d, f.volatility]
  }

  const FeatureNames: seq<string> :=
    ["RSI", "MACD", "Price_Change_1d", "Price_Change_5d", "Price_Change_20d", "Volatility"]

  /** The feature row of day i, when no column of the frame is NaN on that day. */
  function FeatureAt(rows: seq<PriceRow>, i: nat, sqrt: real -> real): (f: Option<FeatureRow>)
    requires i < |rows|
    ensures f.Some? <==> Rsi(Closes(rows), i).Some? && PctChange(Closes(rows), i, 1).Some?
                         && PctChange(Closes(rows), i, 5).Some? && PctChange(Closes(rows), i, 20).Some?
                         && VolumeSmaDefined(rows, i)
    ensures f.Some? ==> i >= RollingWindow && f.value.rsi == Rsi(Closes(rows), i).value
  {
    var close := Closes(rows);
    var rsi, c1, c5, c20 := Rsi(close, i), PctChange(close, i, 1), PctChange(close, i, 5), PctChange(close, i, 20);
    var vol := Volatility(close, i, sqrt);
    if rsi.Some? && c1.Some? && c5.Some? && c20.Some? && vol.Some? && VolumeSmaDefined(rows, i) then
      Some(FeatureRow(rsi.value, Macd(close)[i], c1.value, c5.value, c20.value, vol.value))
    else None
  }

  /** A feature row tagged with the index of its day in the history. */
  datatype DatedRow = DatedRow(day: nat, row: FeatureRow)

  /** The feature row of every day of a history (None on days `dropna` removes). */
  function FeatureTable(rows: seq<PriceRow>, sqrt: real -> real): (t: seq<Option<FeatureRow>>)
    ensures |t| == |rows| && forall d :: 0 <= d < |rows| ==> t[d] == FeatureAt(rows, d, sqrt)
  {
    seq(|rows|, d requires 0 <= d < |rows| => FeatureAt(rows, d, sqrt))
  }

  /** `dropna()` from day `from` on: the defined days of the table, in order, and no others. */
  function DefinedRows(table: seq<Option<FeatureRow>>, from: nat): (fs: seq<DatedRow>)
    requires from <= |table|
    ensures forall k :: 0 <= k < |fs| ==> from <= fs[k].day < |table| && table[fs[k].day] == Some(fs[k].row)
    ensures forall k, m :: 0 <= k < m < |fs| ==> fs[k].day < fs[m].day
    ensures forall d :: from <= d < |table| && table[d].Some? ==> DatedRow(d, table[d].value) in fs
    decreases |table| - from
  {
    if from == |table| then []
    else
      var rest := DefinedRows(table, from + 1);
      match table[from]
      case Some(f) =>
        var fs := [DatedRow(from, f)] + rest;
        assert fs[1..] == rest;
        assert forall x :: x in rest ==> x in fs;
        fs
      case None => rest
  }

  /**
   * `_features_from_history(df)`: empty for an empty frame; None where the
   * frame has rows but no Volume column (pandas raises KeyError); otherwise
   * exactly the days with every indicator defined, in order, none before day 20.
   */
  function FeaturesFromHistory(h: History, sqrt: real -> real): (r: Option<seq<DatedRow>>)
    ensures h.rows == [] ==> r == Some([])
    ensures r == None <==> h.rows != [] && !h.hasVolume
    ensures r.Some? ==> forall k :: 0 <= k < |r.value| ==>
              RollingWindow <= r.value[k].day < |h.rows| && FeatureAt(h.rows, r.value[k].day, sqrt) == Some(r.value[k].row)
    ensures r.Some? ==> forall k, m :: 0 <= k < m < |r.value| ==> r.value[k].day < r.value[m].day
    ensures r.Some? ==> forall d :: 0 <= d < |h.rows| && FeatureAt(h.rows, d, sqrt).Some? ==>
              DatedRow(d, FeatureAt(h.rows, d, sqrt).value) in r.value
  {
    if h.rows == [] then Some([])
    else if !h.hasVolume then None
    else
      var table := FeatureTable(h.rows, sqrt);
      var fs := DefinedRows(table, 0);
      assert forall k :: 0 <= k < |fs| ==> FeatureAt(h.rows, fs[k].day, sqrt) == Some(fs[k].row);
      Some(fs)
  }

  /**
   * `feats.tail(1)` is the latest day of the history whose features are all
   * defined: no later day has a feature row.
   */
  lemma {:induction false} LatestFeatureDay(h: History, sqrt: real -> real, d: nat)
    requires FeaturesFromHistory(h, sqrt).Some? && FeaturesFromHistory(h, sqrt).value != []
    requires FeaturesFromHistory(h, sqrt).value[|FeaturesFromHistory(h, sqrt).value| - 1].day < d < |h.rows|
    ensures FeatureAt(h.rows, d, sqrt) == None
  {
    LaterDayAbsent(FeaturesFromHistory(h, sqrt).value, d);
  }

  /** A list of rows ordered by day holds no row for a day after its last one. */
  lemma {:induction false} LaterDayAbsent(fs: seq<DatedRow>, d: nat)
    requires fs != [] && forall k, m :: 0 <= k < m < |fs| ==> fs[k].day < fs[m].day
    requires fs[|fs| - 1].day < d
    ensures forall row :: DatedRow(d, row) !in fs
  {
    assert forall k :: 0 <= k < |fs| ==> fs[k].day <= fs[|fs| - 1].day;
  }

  // ---------------------------------------------------------------- training data

  /** A row of the training table before the NaN mask: its features and its label, if any. */
  datatype Candidate = Candidate(features: FeatureRow, outcome: Option<Label>)

  datatype Sample = Sample(features: FeatureRow, outcome: Label)

  /** Features aligned with the labels of the same days (`feats.loc[idx]`, `labels.loc[idx]`). */
  function Align(fs: seq<DatedRow>, labels: seq<Option<Label>>): (c: seq<Candidate>)
    requires forall k :: 0 <= k < |fs| ==> fs[k].day < |labels|
    ensures |c| == |fs|
    ensures forall k :: 0 <= k < |fs| ==> c[k] == Candidate(fs[k].row, labels[fs[k].day])
  {
    seq(|fs|, k requires 0 <= k < |fs| => Candidate(fs[k].row, labels[fs[k].day]))
  }

  /**
   * What one symbol adds to the training table: nothing for an empty frame,
   * a frame that makes feature extraction raise, no feature rows, or fewer
   * than 30 aligned rows.
   */
  function SymbolPart(h: History, sqrt: real -> real): (p: Option<seq<Candidate>>)
    ensures p.Some? ==> |p.value| >= MinAlignedRows
  {
    if h.rows == [] then None
    else match FeaturesFromHistory(h, sqrt)
      case None => None
      case Some(fs) =>
        if fs == [] then None
        else
          var aligned := Align(fs, Labels(Closes(h.rows)));
          if |aligned| < MinAlignedRows then None else Some(aligned)
  }

  /** `X_parts` after looping over `symbols`, with `fetch` the backend-then-Yahoo history source. */
  function Parts(symbols: seq<string>, fetch: (string, nat) -> History, sqrt: real -> real): (ps: seq<seq<Candidate>>)
    ensures |ps| <= |symbols|
    ensures forall k :: 0 <= k < |ps| ==> |ps[k]| >= MinAlignedRows
  {
    if symbols == [] then []
    else
      var ps := Parts(symbols[..|symbols| - 1], fetch, sqrt);
      match SymbolPart(fetch(symbols[|symbols| - 1], 365), sqrt)
      case Some(p) => ps + [p]
      case None => ps
  }

  /** The loop of `train_model` that collects one training table per usable symbol. */
  method GatherParts(symbols: seq<string>, fetch: (string, nat) -> History, sqrt: real -> real)
    returns (parts: seq<seq<Candidate>>)
    ensures parts == Parts(symbols, fetch, sqrt)
  {
    parts := [];
    var i := 0;
    while i < |symbols|
      invariant 0 <= i <= |symbols|
      invariant parts == Parts(symbols[..i], fetch, sqrt)
    {
      assert symbols[..i + 1][..i] == symbols[..i];
      var hist := fetch(symbols[i], 365);
      var part := SymbolPart(hist, sqrt);
      if part.Some? {
        parts := parts + [part.value];
      }
      i := i + 1;
    }
    assert symbols[..|symbols|] == symbols;
  }

  /** `pd.concat(parts, ignore_index=True)`. */
  function Concat(ps: seq<seq<Candidate>>): seq<Candidate> {
    if ps == [] then [] else Concat(ps[..|ps| - 1]) + ps[|ps| - 1]
  }

  /** The NaN mask: keeps, in order, exactly the rows that carry a label. */
  function Mask(cs: seq<Candidate>): (s: seq<Sample>)
    ensures |s| <= |cs|
    ensures forall k :: 0 <= k < |s| ==> Candidate(s[k].features, Some(s[k].outcome)) in cs
  {
    if cs == [] then []
    else
      var s := Mask(cs[..|cs| - 1]);
      assert forall c :: c in cs[..|cs| - 1] ==> c in cs;
      match cs[|cs| - 1].outcome
      case Some(l) => s + [Sample(cs[|cs| - 1].features, l)]
      case None => s
  }

  /** Rows without a label are exactly the ones the mask drops. */
  lemma {:induction false} MaskCount(cs: seq<Candidate>)
    ensures |Mask(cs)| + |Unlabelled(cs)| == |cs|
  {
    if cs != [] {
      MaskCount(cs[..|cs| - 1]);
    }
  }

  /** The rows the mask drops, in order. */
  function Unlabelled(cs: seq<Candidate>): (u: seq<Candidate>)
    ensures forall k :: 0 <= k < |u| ==> u[k].outcome.None? && u[k] in cs
  {
    if cs == [] then []
    else
      var u := Unlabelled(cs[..|cs| - 1]);
      assert forall c :: c in cs[..|cs| - 1] ==> c in cs;
      u + (if cs[|cs| - 1].outcome.None? then [cs[|cs| - 1]] else [])
  }

  /** One row is kept, as its sample, exactly when it is labelled, and is otherwise dropped. */
  lemma {:induction false} MaskOne(c: Candidate)
    ensures Mask([c]) == if c.outcome.Some? then [Sample(c.features, c.outcome.value)] else []
    ensures Unlabelled([c]) == if c.outcome.None? then [c] else []
  {
    assert [c][..0] == [];
  }

  /** The mask works row by row: a concatenation keeps both parts' samples, in order. */
  lemma {:induction false} MaskAppend(a: seq<Candidate>, b: seq<Candidate>)
    ensures Mask(a + b) == Mask(a) + Mask(b)
    ensures Unlabelled(a + b) == Unlabelled(a) + Unlabelled(b)
    decreases |b|
  {
    if b == [] {
      assert a + b == a;
    } else {
      var b' := b[..|b| - 1];
      MaskAppend(a, b');
      assert (a + b)[..|a + b| - 1] == a + b';
      assert (a + b)[|a + b| - 1] == b[|b| - 1];
    }
  }

  // ---------------------------------------------------------------- train/test split

  /** `ceil(0.2 * n)`: sklearn's test-set size for test_size=0.2. */
  function TestSize(n: nat): (t: nat)
    ensures 5 * t >= n && 5 * t < n + 5
  {
    (n + 4) / 5
  }

  /** `n - ceil(0.2 * n)`: the training-set size. */
  function TrainSize(n: nat): (t: nat)
    ensures t + TestSize(n) == n
  {
    n - TestSize(n)
  }

  function LabelsOf(s: seq<Sample>): (ls: seq<Label>)
    ensures |ls| == |s| && forall k :: 0 <= k < |s| ==> ls[k] == s[k].outcome
  {
    seq(|s|, k requires 0 <= k < |s| => s[k].outcome)
  }

  function Count(ls: seq<Label>, c: Label): (n: nat)
    ensures n <= |ls|
    ensures n > 0 <==> c in ls
  {
    if ls == [] then 0 else Count(ls[..|ls| - 1], c) + (if ls[|ls| - 1] == c then 1 else 0)
  }

  /** `np.unique(y)`: the labels present, in sklearn's (alphabetical) class order. */
  function Classes(ls: seq<Label>): (cs: seq<Label>)
    ensures forall c :: c in cs <==> c in ls
    ensures forall i, j :: 0 <= i < j < |cs| ==> cs[i] != cs[j]
    ensures 1 <= |cs| <= 3 || ls == []
  {
    var cs := (if Negative in ls then [Negative] else [])
              + (if Neutral in ls then [Neutral] else [])
              + (if Positive in ls then [Positive] else []);
    assert forall c :: c in cs <==> c in ls by {
      forall c ensures c in cs <==> c in ls {
        if c.Negative? { assert c == Negative; } else if c.Neutral? { assert c == Neutral; } else { assert c == Positive; }
      }
    }
    assert ls != [] ==> ls[0] in cs;
    cs
  }

  /**
   * `train_test_split(..., test_size=0.2, stratify=y)` succeeds: the training
   * split is not empty, every class has two members, and each split can hold
   * one row of every class. None, or the reason sklearn raises ValueError.
   */
  function SplitError(ls: seq<Label>): Option<string> {
    var n, k := |ls|, |Classes(ls)|;
    if TrainSize(n) == 0 then Some("the resulting train set will be empty")
    else if exists c :: c in Classes(ls) && Count(ls, c) < 2 then Some("The least populated class in y has only 1 member")
    else if TrainSize(n) < k then Some("The train_size should be greater or equal to the number of classes")
    else if TestSize(n) < k then Some("The test_size should be greater or equal to the number of classes")
    else None
  }

  /** A split that succeeds has a non-empty training and test part, of 80% and 20% (rounded up). */
  lemma {:induction false} SplitSizes(ls: seq<Label>)
    requires SplitError(ls) == None
    ensures TrainSize(|ls|) >= 1 && TestSize(|ls|) >= 1
    ensures TrainSize(|ls|) + TestSize(|ls|) == |ls|
    ensures ls != []
  {
  }

  // ---------------------------------------------------------------- the classifier object

  /** The fitted state of the scaler or the forest: the samples it was fitted on (fixed seeds). */
  datatype Fit = Unfitted | FittedOn(samples: seq<Sample>)

  datatype Metrics = Metrics(accuracy: real, featureImportance: map<string, real>,
                             trainingSamples: nat, testSamples: nat, trainedAt: string)

  /**
   * The library numerics, opaque: the square root, accuracy on the held-out
   * split, `feature_importances_`, and `predict_proba` of a fitted pipeline.
   */
  datatype Learner = Learner(sqrt: real -> real,
                             accuracy: seq<Sample> -> real,
                             importances: seq<Sample> -> seq<real>,
                             proba: (seq<Sample>, FeatureRow) -> seq<real>)

  /** sklearn's promise: one probability per class seen in training. */
  ghost predicate WellFormed(learner: Learner) {
    forall s: seq<Sample>, x: FeatureRow :: |learner.proba(s, x)| == |Classes(LabelsOf(s))|
  }

  /** The index of the first largest probability (`np.argmax`). */
  function ArgMax(p: seq<real>): (i: nat)
    requires |p| > 0
    ensures i < |p| && p[i] == Max(p)
  {
    if |p| == 1 then 0
    else
      var j := ArgMax(p[..|p| - 1]);
      assert p[..|p| - 1][j] == p[j];
      if p[|p| - 1] > p[j] then |p| - 1 else j
  }

  datatype Prediction =
    | Degraded(symbol: string, combinedSentiment: Label, confidence: real, timestamp: string)
    | Full(symbol: string, technicalSentiment: Label, technicalProbabilities: map<Label, real>,
           newsSentiment: Label, newsConfidence: real, combinedSentiment: Label,
           confidence: real, timestamp: string, modelVersion: string)

  /**
   * The full prediction from the class probabilities `p` of the latest
   * feature row: the most probable class (the first on a tie) is both the
   * technical and the combined sentiment, and its probability is the
   * confidence; the news part stays neutral with confidence 0.
   */
  function FullPrediction(symbol: string, classes: seq<Label>, p: seq<real>, now: string): (r: Prediction)
    requires |p| == |classes| >= 1 && PyDict.Distinct(classes)
    ensures r.Full? && r.symbol == PyText.Upper(symbol) && r.timestamp == now
    ensures r.technicalSentiment == r.combinedSentiment && r.technicalSentiment in classes
    ensures r.newsSentiment == Neutral && r.newsConfidence == 0.0
    ensures r.technicalProbabilities.Keys == set c | c in classes
    ensures r.technicalSentiment in r.technicalProbabilities
    ensures r.confidence == r.technicalProbabilities[r.technicalSentiment] && r.confidence == Max(p)
    ensures forall c :: c in r.technicalProbabilities ==> r.technicalProbabilities[c] <= r.confidence
  {
    var k := ArgMax(p);
    var probabilities := PyDict.ZipMap(classes, p);
    PyDict.ZipMapValues(classes, p);
    forall c | c in probabilities
      ensures probabilities[c] <= Max(p)
    {
      var j :| 0 <= j < |classes| && classes[j] == c;
      assert probabilities[c] == p[j];
    }
    Full(PyText.Upper(symbol), classes[k], probabilities, Neutral, 0.0, classes[k], Max(p), now, "rf-tech-1")
  }

  /**
   * The part of `predict_sentiment` after the features are extracted: a
   * missing Volume column raises, no complete feature row gives the
   * degraded neutral answer, and otherwise the latest row is classified.
   */
  method PredictFrom(symbol: string, feats: Option<seq<DatedRow>>, samples: seq<Sample>, learner: Learner, now: string)
    returns (r: Result<Prediction>)
    requires WellFormed(learner) && samples != []
    ensures feats.None? ==> r == Err("KeyError: 'Volume'")
    ensures feats == Some([]) ==> r == Ok(Degraded(symbol, Neutral, 0.0, now))
    ensures feats.Some? && feats.value != [] ==>
              r == Ok(FullPrediction(symbol, Classes(LabelsOf(samples)),
                                     learner.proba(samples, feats.value[|feats.value| - 1].row), now))
  {
    if feats.None? {
      return Err("KeyError: 'Volume'");
    }
    if feats.value == [] {
      return Ok(Degraded(symbol, Neutral, 0.0, now));
    }
    var latest := feats.value[|feats.value| - 1].row;
    var classes := Classes(LabelsOf(samples));
    var p := learner.proba(samples, latest);
    assert |p| == |classes| >= 1;
    r := Ok(FullPrediction(symbol, classes, p, now));
  }

  class MarketSentimentAnalyzer {
    var scaler: Fit
    var model: Fit
    var isTrained: bool
    var lastMetrics: Option<Metrics>

    /** Untrained with no metrics, or trained with scaler and forest fitted on the same non-empty samples. */
    ghost predicate Valid()
      reads this
    {
      (!isTrained ==> scaler == Unfitted && model == Unfitted && lastMetrics == None)
      && (isTrained ==> model.FittedOn? && model.samples != [] && scaler == model && lastMetrics.Some?)
    }

    constructor ()
      ensures Valid() && !isTrained && lastMetrics == None
    {
      scaler := Unfitted;
      model := Unfitted;
      isTrained := false;
      lastMetrics := None;
    }

    /**
     * `train_model`: builds the table from every symbol that yields at least
     * 30 aligned rows, masks unlabelled rows, splits 80/20 and fits. Every
     * failure happens before any field changes.
     */
    method TrainModel(symbols: seq<string>, fetch: (string, nat) -> History, learner: Learner, now: string)
      returns (r: Result<Metrics>)
      requires Valid()
      modifies this
      ensures Valid()
      ensures Parts(symbols, fetch, learner.sqrt) == [] ==> r == Err("No valid training data from provided symbols")
      ensures r.Err? ==> scaler == old(scaler) && model == old(model)
                         && isTrained == old(isTrained) && lastMetrics == old(lastMetrics)
      ensures r.Ok? <==> Parts(symbols, fetch, learner.sqrt) != []
                         && SplitError(LabelsOf(Mask(Concat(Parts(symbols, fetch, learner.sqrt))))) == None
      ensures r.Ok? ==>
        var samples := Mask(Concat(Parts(symbols, fetch, learner.sqrt)));
        isTrained && scaler == FittedOn(samples) && model == FittedOn(samples)
        && lastMetrics == Some(r.value)
        && r.value.trainingSamples + r.value.testSamples == |samples|
        && r.value.testSamples == TestSize(|samples|)
        && r.value.accuracy == learner.accuracy(samples)
        && r.value.featureImportance == ZipMap(FeatureNames, learner.importances(samples))
        && r.value.trainedAt == now
    {
      var parts := GatherParts(symbols, fetch, learner.sqrt);
      if parts == [] {
        return Err("No valid training data from provided symbols");
      }
      var samples := Mask(Concat(parts));
      var split := SplitError(LabelsOf(samples));
      if split.Some? {
        return Err(split.value);
      }
      SplitSizes(LabelsOf(samples));
      var n := |samples|;
      scaler := FittedOn(samples);
      model := FittedOn(samples);
      isTrained := true;
      var metrics := Metrics(learner.accuracy(samples), ZipMap(FeatureNames, learner.importances(samples)),
                             TrainSize(n), TestSize(n), now);
      lastMetrics := Some(metrics);
      r := Ok(metrics);
    }

    /**
     * `predict_sentiment`: raises when untrained; a neutral, zero-confidence
     * answer when the history yields no feature row; otherwise the forest's
     * class for the latest row, with the largest class probability as
     * confidence and the symbol upper-cased.
     */
    method PredictSentiment(symbol: string, fetch: (string, nat) -> History, learner: Learner, now: string)
      returns (r: Result<Prediction>)
      requires Valid() && WellFormed(learner)
      ensures !isTrained ==> r == Err("Model must be trained before predicting")
      ensures isTrained && FeaturesFromHistory(fetch(symbol, 240), learner.sqrt) == None ==> r.Err?
      ensures isTrained && FeaturesFromHistory(fetch(symbol, 240), learner.sqrt) == Some([]) ==>
                r == Ok(Degraded(symbol, Neutral, 0.0, now))
      ensures isTrained && FeaturesFromHistory(fetch(symbol, 240), learner.sqrt).Some?
              && FeaturesFromHistory(fetch(symbol, 240), learner.sqrt).value != [] ==>
                var fs := FeaturesFromHistory(fetch(symbol, 240), learner.sqrt).value;
                r == Ok(FullPrediction(symbol, Classes(LabelsOf(model.samples)),
                                       learner.proba(model.samples, fs[|fs| - 1].row), now))
    {
      if !isTrained {
        return Err("Model must be trained before predicting");
      }
      var feats := FeaturesFromHistory(fetch(symbol, 240), learner.sqrt);
      r := PredictFrom(symbol, feats, model.samples, learner, now);
    }
  }
}
