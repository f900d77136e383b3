/**
 * The SPY moving-average strategy: a 200-row simple moving average of the SPY
 * close, a rule that labels each row 'aggressive' when the close is at or
 * above the average and 'defensive' otherwise, and the two allocation tables
 * the labels select between through the time-indexed alpha model.
 */
module SpyMa {
  import opened Wrappers
  import opened TimeSignals

  const AGGRESSIVE: Label := "aggressive"
  const DEFENSIVE: Label := "defensive"

  /** The length of the rolling window of the moving average. */
  const SMA_WINDOW: nat := 200

  /** The strategy's symbols; its assets are these with the equity prefix. */
  const STRATEGY_SYMBOLS: seq<string> := ["SPY", "AGG"]

  const DEFENSIVE_ALLOC: Weights := map["EQ:SPY" := 0.4, "EQ:AGG" := 0.6]
  const AGGRESSIVE_ALLOC: Weights := map["EQ:SPY" := 0.6, "EQ:AGG" := 0.4]
  const STRATEGY_SIGNAL: map<Label, Weights> :=
    map[DEFENSIVE := DEFENSIVE_ALLOC, AGGRESSIVE := AGGRESSIVE_ALLOC]

  /** `'EQ:%s' % symbol` for every symbol: the asset identifiers, in symbol order. */
  function AssetIds(symbols: seq<string>): (ids: seq<AssetId>)
    ensures |ids| == |symbols|
    ensures forall k :: 0 <= k < |symbols| ==> ids[k] == "EQ:" + symbols[k]
  {
    if symbols == [] then [] else ["EQ:" + symbols[0]] + AssetIds(symbols[1..])
  }

  /** The sum of the weights a table gives to the listed assets (absent ones weigh zero). */
  function TotalWeight(w: Weights, assets: seq<AssetId>): real {
    if assets == [] then 0.0
    else (if assets[0] in w then w[assets[0]] else 0.0) + TotalWeight(w, assets[1..])
  }

  /** Both allocation tables cover exactly the strategy's assets, long-only, fully invested. */
  lemma AllocationTables()
    ensures AssetIds(STRATEGY_SYMBOLS) == ["EQ:SPY", "EQ:AGG"]
    ensures DEFENSIVE_ALLOC.Keys == AGGRESSIVE_ALLOC.Keys == {"EQ:SPY", "EQ:AGG"}
    ensures TotalWeight(DEFENSIVE_ALLOC, AssetIds(STRATEGY_SYMBOLS)) == 1.0
    ensures TotalWeight(AGGRESSIVE_ALLOC, AssetIds(STRATEGY_SYMBOLS)) == 1.0
    ensures forall a :: a in DEFENSIVE_ALLOC ==> 0.0 <= DEFENSIVE_ALLOC[a] <= 1.0
    ensures forall a :: a in AGGRESSIVE_ALLOC ==> 0.0 <= AGGRESSIVE_ALLOC[a] <= 1.0
    ensures STRATEGY_SIGNAL.Keys == {DEFENSIVE, AGGRESSIVE}
  {
    assert STRATEGY_SYMBOLS[1..] == ["AGG"] && STRATEGY_SYMBOLS[1..][1..] == [];
    assert "EQ:" + "SPY" == "EQ:SPY" && "EQ:" + "AGG" == "EQ:AGG";
    var assets := AssetIds(STRATEGY_SYMBOLS);
    assert assets[1..] == ["EQ:AGG"] && assets[1..][1..] == [];
    assert "EQ:SPY" != "EQ:AGG" by { assert "EQ:SPY"[3] != "EQ:AGG"[3]; }
    assert TotalWeight(DEFENSIVE_ALLOC, assets[1..]) == 0.6;
    assert TotalWeight(AGGRESSIVE_ALLOC, assets[1..]) == 0.4;
  }

  function Sum(s: seq<real>): real {
    if s == [] then 0.0 else s[0] + Sum(s[1..])
  }

  /** A sum of values lying between `lo` and `hi` lies between n * lo and n * hi. */
  lemma {:induction false} SumBounds(s: seq<real>, lo: real, hi: real)
    requires forall k :: 0 <= k < |s| ==> lo <= s[k] <= hi
    ensures |s| as real * lo <= Sum(s) <= |s| as real * hi
  {
    if s != [] {
      SumBounds(s[1..], lo, hi);
    }
  }

  /**
   * `rolling(window).mean()` at row `i`: the mean of rows i-window+1..i, and
   * undefined (NaN) while fewer than `window` rows exist.
   */
  function RollingMean(prices: seq<real>, window: nat, i: nat): (r: Option<real>)
    requires 0 < window && i < |prices|
    ensures r.None? <==> i + 1 < window
  {
    if i + 1 < window then None
    else Some(Sum(prices[i + 1 - window .. i + 1]) / window as real)
  }

  /** A defined moving average lies between the least and greatest price of its window. */
  lemma RollingMeanWithinWindow(prices: seq<real>, window: nat, i: nat, lo: real, hi: real)
    requires 0 < window && window <= i + 1 < |prices| + 1
    requires forall k :: i + 1 - window <= k <= i ==> lo <= prices[k] <= hi
    ensures RollingMean(prices, window, i).Some?
    ensures lo <= RollingMean(prices, window, i).value <= hi
  {
    var w := prices[i + 1 - window .. i + 1];
    assert forall k :: 0 <= k < |w| ==> w[k] == prices[i + 1 - window + k];
    SumBounds(w, lo, hi);
    var n := window as real;
    var s := Sum(w);
    assert n * lo <= s <= n * hi;
    assert lo <= s / n by {
      assert s / n * n == s;
    }
    assert s / n <= hi by {
      assert s / n * n == s;
    }
  }

  /** The moving average at a row uses no later row: appending rows leaves it unchanged. */
  lemma RollingMeanCausal(prices: seq<real>, later: seq<real>, window: nat, i: nat)
    requires 0 < window && i < |prices|
    ensures RollingMean(prices + later, window, i) == RollingMean(prices, window, i)
  {
    if window <= i + 1 {
      assert (prices + later)[i + 1 - window .. i + 1] == prices[i + 1 - window .. i + 1];
    }
  }

  /**
   * `apply_sma_strategy`: 'aggressive' when the close is at or above its moving
   * average, 'defensive' otherwise, an undefined average included.
   */
  function ApplySmaStrategy(price: real, ma: Option<real>): (l: Label)
    ensures l in STRATEGY_SIGNAL
    ensures l == AGGRESSIVE <==> ma.Some? && price >= ma.value
    ensures l == DEFENSIVE <==> ma.None? || price < ma.value
  {
    if ma.Some? && price >= ma.value then AGGRESSIVE else DEFENSIVE
  }

  /** With the average fixed, a higher price can only move the label towards 'aggressive'. */
  lemma SmaMonotoneInPrice(p1: real, p2: real, ma: Option<real>)
    requires p1 <= p2
    ensures ApplySmaStrategy(p1, ma) == AGGRESSIVE ==> ApplySmaStrategy(p2, ma) == AGGRESSIVE
    ensures ApplySmaStrategy(p2, ma) == DEFENSIVE ==> ApplySmaStrategy(p1, ma) == DEFENSIVE
  {
  }

  /**
   * The label table the script builds: each row's time and the label the rule
   * gives to its close and its 200-row moving average.
   */
  function LabelledFrame(times: seq<Timestamp>, prices: seq<real>): (rows: seq<Row>)
    requires |times| == |prices|
    ensures |rows| == |times|
    ensures forall i :: 0 <= i < |rows| ==>
      rows[i] == Row(times[i], ApplySmaStrategy(prices[i], RollingMean(prices, SMA_WINDOW, i)))
    ensures forall i :: 0 <= i < |rows| ==> rows[i].strategy in STRATEGY_SIGNAL
    ensures forall i :: 0 <= i < |rows| && i + 1 < SMA_WINDOW ==> rows[i].strategy == DEFENSIVE
  {
    seq(|times|, i requires 0 <= i < |times| =>
      Row(times[i], ApplySmaStrategy(prices[i], RollingMean(prices, SMA_WINDOW, i))))
  }

  /**
   * The alpha model the script constructs from the label table, with the
   * default universe. Its table is sorted exactly when the times are, and
   * every label in it is a key of its signal dictionary.
   */
  function SmaAlphaModel(times: seq<Timestamp>, prices: seq<real>): (m: TimeSignalsAlphaModel)
    requires |times| == |prices|
    ensures m.signal == STRATEGY_SIGNAL && m.universe == None
    ensures |m.dataHandler| == |times|
    ensures forall i :: 0 <= i < |times| ==> m.dataHandler[i].time == times[i]
    ensures forall i :: 0 <= i < |times| ==> m.dataHandler[i].strategy in m.signal
    ensures Sorted(m.dataHandler) <==> forall a, b :: 0 <= a < b < |times| ==> times[a] < times[b]
  {
    Init(STRATEGY_SIGNAL, LabelledFrame(times, prices), None)
  }

  /**
   * Every label the rule produces is a key of the signal table, so a forecast
   * that does not raise is always one of the two allocation tables, never `None`.
   */
  lemma SmaForecastNeverMissing(times: seq<Timestamp>, prices: seq<real>, dt: Timestamp)
    requires |times| == |prices|
    ensures var r := Call(SmaAlphaModel(times, prices), dt);
      r.Ok? ==> r.value == Some(DEFENSIVE_ALLOC) || r.value == Some(AGGRESSIVE_ALLOC)
  {
    var m := SmaAlphaModel(times, prices);
    var s := StrategyAt(m, dt);
    if s.Ok? {
      var i :| IsPadRow(m.dataHandler, dt, i) && s.value == m.dataHandler[i].strategy;
      assert s.value in STRATEGY_SIGNAL;
    }
  }

  /**
   * At any time whose pad row is row `i` (at or after row i's time and before
   * the next row's), the forecast is the allocation the rule chose for row `i`:
   * aggressive when the close is at or above a defined average.
   */
  lemma SmaForecastAt(times: seq<Timestamp>, prices: seq<real>, i: nat, dt: Timestamp)
    requires |times| == |prices| && i < |times|
    requires forall a, b :: 0 <= a < b < |times| ==> times[a] < times[b]
    requires times[i] <= dt && (i + 1 == |times| || dt < times[i + 1])
    ensures var ma := RollingMean(prices, SMA_WINDOW, i);
      Call(SmaAlphaModel(times, prices), dt)
        == Ok(Some(if ma.Some? && prices[i] >= ma.value then AGGRESSIVE_ALLOC else DEFENSIVE_ALLOC))
  {
    var m := SmaAlphaModel(times, prices);
    var rows := m.dataHandler;
    assert forall j :: i < j < |rows| ==> dt < rows[j].time by {
      forall j | i < j < |rows| ensures dt < rows[j].time {
        assert times[i + 1] <= times[j];
      }
    }
    assert IsPadRow(rows, dt, i);
    var j :| IsPadRow(rows, dt, j) && StrategyAt(m, dt).value == rows[j].strategy;
    PadRowUnique(rows, dt, i, j);
  }

  /** At a row's own timestamp the forecast is the allocation the rule chose for that row. */
  lemma SmaForecastAtRow(times: seq<Timestamp>, prices: seq<real>, i: nat)
    requires |times| == |prices| && i < |times|
    requires forall a, b :: 0 <= a < b < |times| ==> times[a] < times[b]
    ensures var ma := RollingMean(prices, SMA_WINDOW, i);
      Call(SmaAlphaModel(times, prices), times[i])
        == Ok(Some(if ma.Some? && prices[i] >= ma.value then AGGRESSIVE_ALLOC else DEFENSIVE_ALLOC))
  {
    SmaForecastAt(times, prices, i, times[i]);
  }

  /** Before the 200th row the average is undefined, so the forecast there is defensive. */
  lemma SmaEarlyRowsDefensive(times: seq<Timestamp>, prices: seq<real>, i: nat)
    requires |times| == |prices| && i < |times| && i + 1 < SMA_WINDOW
    requires forall a, b :: 0 <= a < b < |times| ==> times[a] < times[b]
    ensures Call(SmaAlphaModel(times, prices), times[i]) == Ok(Some(DEFENSIVE_ALLOC))
  {
    SmaForecastAtRow(times, prices, i);
  }
}
