/**
 * The time-indexed alpha model: a table of per-timestamp strategy labels and
 * a dictionary from label to weight table. A query at time `dt` reads the
 * label of the latest row at or before `dt` (a forward-fill or "pad" lookup)
 * and returns the weight table stored under that label, if any.
 */
module TimeSignals {
  import opened Wrappers

  /** Timestamps are modelled as integers; only their order matters here. */
  type Timestamp = int
  type AssetId = string
  type Label = string
  /** A forecast: asset identifier to scalar weight. */
  type Weights = map<AssetId, real>

  /** One row of the label table: its index timestamp and its 'strategy' column. */
  datatype Row = Row(time: Timestamp, strategy: Label)

  /** Why a lookup raises instead of returning. */
  datatype LookupError =
    | IndexNotIncreasing   // the table's index is not strictly increasing
    | KeyError(dt: Timestamp) // no row at or before the queried time

  /**
   * The alpha model's configuration, fixed once at construction: the label to
   * weights dictionary, the label table and the (unused) universe.
   */
  datatype TimeSignalsAlphaModel = TimeSignalsAlphaModel(
    signal: map<Label, Weights>,
    dataHandler: seq<Row>,
    universe: Option<seq<AssetId>>)

  /**
   * `__init__`: stores the signal dictionary, the label table and the universe
   * (the script leaves the universe at its default, `None`) and nothing else.
   */
  function Init(signal: map<Label, Weights>, dataHandler: seq<Row>, universe: Option<seq<AssetId>>)
    : (m: TimeSignalsAlphaModel)
    ensures m.signal == signal && m.dataHandler == dataHandler && m.universe == universe
  {
    TimeSignalsAlphaModel(signal, dataHandler, universe)
  }

  /** The index of the table is strictly increasing. */
  ghost predicate Sorted(rows: seq<Row>) {
    forall i, j :: 0 <= i < j < |rows| ==> rows[i].time < rows[j].time
  }

  /** Executable test of `Sorted`, comparing neighbours only. */
  predicate IsIncreasing(rows: seq<Row>)
    ensures IsIncreasing(rows) <==> Sorted(rows)
  {
    |rows| < 2 || (rows[0].time < rows[1].time && IsIncreasing(rows[1..]))
  }

  /** Row `i` is the latest row at or before `dt`. */
  ghost predicate IsPadRow(rows: seq<Row>, dt: Timestamp, i: int) {
    && 0 <= i < |rows|
    && rows[i].time <= dt
    && forall j :: i < j < |rows| ==> dt < rows[j].time
  }

  /**
   * Binary search for the number of rows at or before `dt`, knowing that the
   * rows before `lo` are at or before `dt` and the rows from `hi` on are after it.
   */
  function CountAtOrBefore(rows: seq<Row>, dt: Timestamp, lo: nat, hi: nat): (k: nat)
    requires Sorted(rows)
    requires lo <= hi <= |rows|
    requires forall j :: 0 <= j < lo ==> rows[j].time <= dt
    requires forall j :: hi <= j < |rows| ==> dt < rows[j].time
    ensures lo <= k <= hi
    ensures forall j :: 0 <= j < k ==> rows[j].time <= dt
    ensures forall j :: k <= j < |rows| ==> dt < rows[j].time
    decreases hi - lo
  {
    if lo == hi then lo
    else
      var mid := (lo + hi) / 2;
      if rows[mid].time <= dt then CountAtOrBefore(rows, dt, mid + 1, hi)
      else CountAtOrBefore(rows, dt, lo, mid)
  }

  /**
   * `index.get_loc(dt, method='pad')`: the position of the latest row at or
   * before `dt`, or `None` when every row is after `dt`.
   */
  function PadLoc(rows: seq<Row>, dt: Timestamp): (r: Option<nat>)
    requires Sorted(rows)
    ensures r.None? <==> forall j :: 0 <= j < |rows| ==> dt < rows[j].time
    ensures r.Some? ==> IsPadRow(rows, dt, r.value)
  {
    var k := CountAtOrBefore(rows, dt, 0, |rows|);
    if k == 0 then None
    else
      assert rows[0].time <= dt;
      Some(k - 1)
  }

  /** At most one row is the latest at or before a given time. */
  lemma PadRowUnique(rows: seq<Row>, dt: Timestamp, i: int, j: int)
    requires IsPadRow(rows, dt, i) && IsPadRow(rows, dt, j)
    ensures i == j
  {
  }

  /** A query exactly at an index timestamp reads that very row. */
  lemma PadExact(rows: seq<Row>, i: nat)
    requires Sorted(rows)
    requires i < |rows|
    ensures PadLoc(rows, rows[i].time) == Some(i)
  {
    var r := PadLoc(rows, rows[i].time);
    assert r.Some?;
    assert forall j :: i < j < |rows| ==> rows[i].time < rows[j].time;
    PadRowUnique(rows, rows[i].time, r.value, i);
  }

  /** A query between two neighbouring timestamps reads the earlier row. */
  lemma PadBetween(rows: seq<Row>, i: nat, dt: Timestamp)
    requires Sorted(rows)
    requires i + 1 < |rows|
    requires rows[i].time < dt < rows[i + 1].time
    ensures PadLoc(rows, dt) == Some(i)
  {
    var r := PadLoc(rows, dt);
    assert r.Some?;
    assert forall j :: i < j < |rows| ==> rows[i + 1].time <= rows[j].time;
    PadRowUnique(rows, dt, r.value, i);
  }

  /** A query at or after the last timestamp reads the last row. */
  lemma PadAfterLast(rows: seq<Row>, dt: Timestamp)
    requires Sorted(rows)
    requires |rows| > 0 && rows[|rows| - 1].time <= dt
    ensures PadLoc(rows, dt) == Some(|rows| - 1)
  {
    var r := PadLoc(rows, dt);
    assert r.Some?;
    PadRowUnique(rows, dt, r.value, |rows| - 1);
  }

  /** A query before the first timestamp (or on an empty table) finds no row. */
  lemma PadBeforeFirst(rows: seq<Row>, dt: Timestamp)
    requires Sorted(rows)
    requires |rows| == 0 || dt < rows[0].time
    ensures PadLoc(rows, dt) == None
  {
    if |rows| > 0 {
      assert forall j :: 0 < j < |rows| ==> rows[0].time < rows[j].time;
    }
  }

  /** A later query never reads an earlier row. */
  lemma PadMonotone(rows: seq<Row>, dt1: Timestamp, dt2: Timestamp)
    requires Sorted(rows)
    requires dt1 <= dt2
    requires PadLoc(rows, dt1).Some?
    ensures PadLoc(rows, dt2).Some?
    ensures PadLoc(rows, dt1).value <= PadLoc(rows, dt2).value
  {
    var i := PadLoc(rows, dt1).value;
    assert rows[i].time <= dt2;
    var r := PadLoc(rows, dt2);
    assert r.Some?;
  }

  /**
   * Line one of `__call__`: the 'strategy' label of the latest row at or
   * before `dt`. An index that is not strictly increasing, or a time before
   * every row, raises.
   */
  function StrategyAt(m: TimeSignalsAlphaModel, dt: Timestamp): (r: Result<Label, LookupError>)
    ensures r == Err(IndexNotIncreasing) <==> !Sorted(m.dataHandler)
    ensures r == Err(KeyError(dt)) <==>
      Sorted(m.dataHandler) && forall j :: 0 <= j < |m.dataHandler| ==> dt < m.dataHandler[j].time
    ensures r.Err? ==> r == Err(IndexNotIncreasing) || r == Err(KeyError(dt))
    ensures r.Ok? ==> exists i :: IsPadRow(m.dataHandler, dt, i) && r.value == m.dataHandler[i].strategy
  {
    if !IsIncreasing(m.dataHandler) then Err(IndexNotIncreasing)
    else
      match PadLoc(m.dataHandler, dt)
      case None => Err(KeyError(dt))
      case Some(i) => Ok(m.dataHandler[i].strategy)
  }

  /**
   * `__call__(dt)`: the weight table stored under the label in force at `dt`,
   * `None` when the label is not a key of `signal`, or the lookup's error.
   */
  function Call(m: TimeSignalsAlphaModel, dt: Timestamp): (r: Result<Option<Weights>, LookupError>)
    ensures r.Err? <==> StrategyAt(m, dt).Err?
    ensures r.Err? ==> r.error == StrategyAt(m, dt).error
    ensures r.Ok? ==> var strategy := StrategyAt(m, dt).value;
      if strategy in m.signal then r.value == Some(m.signal[strategy]) else r.value == None
  {
    match StrategyAt(m, dt)
    case Err(e) => Err(e)
    case Ok(strategy) => Ok(Get(m.signal, strategy))
  }

  /** The forecast reads only `signal` and the label table, never the universe. */
  lemma CallIgnoresUniverse(m: TimeSignalsAlphaModel, universe: Option<seq<AssetId>>, dt: Timestamp)
    ensures Call(m, dt) == Call(m.(universe := universe), dt)
  {
  }
}
