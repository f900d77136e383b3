# Time-indexed alpha model and SMA regime strategy (qstrader)

This project models two connected pieces of a qstrader strategy pipeline and
proves properties about them in Dafny.

* **`TimeSignalsAlphaModel`** (`qstrader/alpha_model/time_signals.py`). It is
  configured with a `signal` dictionary, from strategy label to weight table,
  and a label table (the `data_handler` frame). Called at a time `dt`, it finds
  the latest row at or before `dt`. This is the pandas `get_loc(dt,
  method='pad')` forward-fill lookup. It then reads that row's `'strategy'`
  label and returns `signal.get(label)`. Module `TimeSignals` models this:
  * timestamps are integers and the frame is a `seq<Row>` of (time, strategy);
  * the pad search is a binary search (`CountAtOrBefore`), characterised by
    `IsPadRow`: row `i` is at or before `dt` and every later row is after `dt`;
  * the call is a function `Call` that returns a `Result`. `KeyError` is the
    pad failure. `Ok(None)` is the `.get` miss.
  * The constructor `__init__` only stores its three arguments. It is the
    function `TimeSignals.Init`, which builds a `TimeSignalsAlphaModel` value.
    The model is a value, so in the model a call cannot change the stored
    `signal` or `data_handler`. The aliasing of the returned dictionary is not
    captured (see Left out).
* **The SPY moving-average script** (`examples/spy_ma.py`). Module `SpyMa`
  models three parts of it:
  * the 200-row rolling mean of the SPY close (`RollingMean`). It is undefined
    (`None`, pandas' NaN) until 200 rows exist;
  * the rule `apply_sma_strategy` (`ApplySmaStrategy`). It gives
    `'aggressive'` when the close is at or above the mean. Otherwise it gives
    `'defensive'`, including when the mean is undefined, because a NaN
    comparison is false;
  * the two allocation tables and the `strategy_signal` dictionary.

  The lemmas then connect the two pieces. Every label the rule writes is a key
  of `strategy_signal`. So an alpha model built on the labelled frame never
  returns `None`. When the timestamps are strictly increasing, a call at any time
  whose pad row is row i returns the allocation that the rule chose for row i.

pandas raises for a pad lookup on a non-unique or non-monotonic index. The
model reports such an index as `Err(IndexNotIncreasing)`, an explicit error
instead of a precondition. A strictly decreasing index, which pandas pads, is
also reported as `IndexNotIncreasing` here (see Left out).

## Model

| member | source | states |
|---|---|---|
| `TimeSignals.Init` | qstrader/alpha_model/time_signals.py:21-29 | `__init__` stores the signal dictionary, the label table and the universe unchanged, and nothing else. |
| `TimeSignals.IsIncreasing` | qstrader/alpha_model/time_signals.py:47 | Checking neighbouring timestamps decides exactly whether the whole index is strictly increasing, which the pad lookup needs. |
| `TimeSignals.CountAtOrBefore` | qstrader/alpha_model/time_signals.py:47 | The binary search returns the split point k of a sorted table: every row before k is at or before `dt` and every row from k on is after it. |
| `TimeSignals.PadLoc` | qstrader/alpha_model/time_signals.py:47 | `get_loc(dt, method='pad')` finds no row exactly when every row is after `dt`. Otherwise it returns the latest row at or before `dt`. |
| `TimeSignals.PadRowUnique` | qstrader/alpha_model/time_signals.py:47 | At most one row is the latest row at or before a given time, so the pad position is well defined. |
| `TimeSignals.PadExact` | qstrader/alpha_model/time_signals.py:47 | A query that equals an index timestamp selects exactly that row. |
| `TimeSignals.PadBetween` | qstrader/alpha_model/time_signals.py:47 | A query strictly between two neighbouring timestamps selects the earlier row. |
| `TimeSignals.PadAfterLast` | qstrader/alpha_model/time_signals.py:47 | A query at or after the last timestamp selects the last row. |
| `TimeSignals.PadBeforeFirst` | qstrader/alpha_model/time_signals.py:47 | A query before the first timestamp, or on an empty table, finds no row. |
| `TimeSignals.PadMonotone` | qstrader/alpha_model/time_signals.py:47 | The selected position never decreases as the query time grows, so a later query never reads an earlier row. |
| `TimeSignals.StrategyAt` | qstrader/alpha_model/time_signals.py:47 | The label read is the 'strategy' of the latest row at or before `dt`. The lookup raises KeyError exactly when no such row exists. It raises an index error exactly when the index is not strictly increasing. |
| `TimeSignals.Call` | qstrader/alpha_model/time_signals.py:31-50 | `__call__` raises exactly when the label lookup raises. Otherwise it returns `signal[label]` when the label is a key and `None` when it is not. |
| `Wrappers.Get` | qstrader/alpha_model/time_signals.py:50 | `dict.get` gives a value exactly for the keys of the dictionary, and the value is the stored one. |
| `TimeSignals.CallIgnoresUniverse` | qstrader/alpha_model/time_signals.py:21-29 | Replacing the stored universe never changes the forecast. |
| `SpyMa.AssetIds` | examples/spy_ma.py:27-28 | The strategy assets are the symbols in order, each prefixed with 'EQ:'. |
| `SpyMa.AllocationTables` | examples/spy_ma.py:54-56 | This states the properties of the constants `DEFENSIVE_ALLOC`, `AGGRESSIVE_ALLOC` and `STRATEGY_SIGNAL`, which are the tables of lines 54-56. Both allocation tables have exactly the keys EQ:SPY and EQ:AGG, the 'EQ:'-prefixed strategy symbols. Their weights lie in [0, 1] and sum to 1. `strategy_signal` has exactly the keys 'defensive' and 'aggressive'. |
| `SpyMa.SumBounds` | examples/spy_ma.py:45 | A sum of n values in [lo, hi] lies in [n * lo, n * hi]. |
| `SpyMa.RollingMean` | examples/spy_ma.py:45 | The rolling mean at row i is undefined exactly when fewer than `window` rows end at row i. |
| `SpyMa.RollingMeanWithinWindow` | examples/spy_ma.py:45 | A defined rolling mean lies between the least and the greatest close of its window. |
| `SpyMa.RollingMeanCausal` | examples/spy_ma.py:45 | The rolling mean at a row only uses that row and earlier ones: appending later rows never changes it. |
| `SpyMa.ApplySmaStrategy` | examples/spy_ma.py:15-19 | The label is 'aggressive' exactly when the mean is defined and the close is at or above it, equality included. Otherwise it is 'defensive'. Either way it is a key of `strategy_signal`. |
| `SpyMa.SmaMonotoneInPrice` | examples/spy_ma.py:16 | With the mean held fixed, raising the close can only move the label from 'defensive' to 'aggressive', never back. |
| `SpyMa.LabelledFrame` | examples/spy_ma.py:45-46 | Each row of the label column is the rule applied to that row's close and its 200-row mean. Every label is a key of `strategy_signal`. The first 199 rows are 'defensive'. |
| `SpyMa.SmaAlphaModel` | examples/spy_ma.py:57 | The alpha model built from the strategy signal and the labelled frame, with the default universe `None`. Every label in its table is a key of its signal dictionary. Its table is sorted exactly when the times are strictly increasing. |
| `SpyMa.SmaForecastNeverMissing` | examples/spy_ma.py:54-57 | On the labelled frame, an alpha-model call that does not raise returns one of the two allocation tables, never `None`. |
| `SpyMa.SmaForecastAt` | examples/spy_ma.py:45-57 | The times are strictly increasing, and `dt` is at or after row i's time and before the next row's. A call at `dt` then returns the aggressive table when row i's close is at or above its defined mean, and the defensive table otherwise. |
| `SpyMa.SmaForecastAtRow` | examples/spy_ma.py:45-57 | At a row's own timestamp, it returns the aggressive table when the close is at or above a defined mean and the defensive table otherwise. This holds for a strictly increasing index. |
| `SpyMa.SmaEarlyRowsDefensive` | examples/spy_ma.py:45-46 | At the timestamps of the first 199 rows the mean is undefined, so the forecast is the defensive table. |

## Left out

- The print calls in `__call__` are console output and are not modelled.
- CSV loading, the data source and data handler classes, and the environment-variable lookup are I/O. The model has no data handler object: the label table is given directly as a sequence of rows.
- The backtest trading session, the fixed-signals alpha model, the static universe and the tearsheet are not part of this model. Their source is not among the modelled files, so there is no rebalancing, ledger or order logic here.
- The 202-calendar-day lookback is calendar plumbing and is not modelled. It does not guarantee 200 earlier rows, which is why the undefined-mean case is modelled.
- pandas internals are not modelled: DataFrame, `iloc` and `apply` mechanics, and timezone-aware timestamps, which are integers here. IEEE floating point is not modelled: closes, means and weights are exact reals, and an undefined mean is `None`.
- A NaN close price is not modelled: closes are always defined reals. pandas would make every mean whose window holds a NaN close undefined; here only the first 199 means are undefined.
- `TimeSignals.StrategyAt`: every index that is not strictly increasing gives one error. pandas separates non-unique indexes from non-monotonic ones, and it has a pad mode for decreasing indexes. Neither distinction is modelled.
- `__call__` returns the stored weight dictionary itself, an alias of `defensive_alloc` or `aggressive_alloc`. A caller that edits a returned forecast in place changes every later forecast. The model has value semantics, so it does not capture this aliasing.
- The universe is modelled as an optional sequence of asset identifiers. The universe class is not part of this model, and `__call__` never reads the universe.
