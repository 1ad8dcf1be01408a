/**
 * Observation rows: the columns of `kvData` that the aggregator looks at.
 *
 * Times are whole seconds since some midnight, values are reals. Two rows are
 * the same observation when their six key columns are equal.
 */
module Observations {

  const HOUR := 3600
  const DAY := 86400

  // Parameter numbers.
  const RR_01 := 105
  const RR_1 := 106
  const RR_12 := 109
  const RR_24 := 110
  const RA := 104
  const TA := 211
  const TAM_24 := 253
  const TAN := 213
  const TAN_12 := 214
  const TAX := 215
  const TAX_12 := 216
  const TGN := 223
  const TGN_12 := 224
  const UU := 262
  const UUM_24 := 266
  const NN := 15
  const NNM_24 := 16
  const PO := 173
  const PR := 178
  const OT_1 := 121
  const OT_24 := 122

  datatype Key = Key(station: int, obstime: int, param: int, level: int, sensor: int, typeId: int)

  datatype ControlInfo = ControlInfo(fagg: int, fmis: int, rest: string)

  datatype UseInfo = UseInfo(flag2: int, flag3: int, rest: string)

  /** `valid` and `originalMissing` stand for the library predicates of those names. */
  datatype Value = Value(
    original: real,
    corrected: real,
    originalMissing: bool,
    valid: bool,
    control: ControlInfo,
    use: UseInfo)

  datatype Row = Row(key: Key, value: Value)

  /** A request for one time series; `from` is exclusive unless it equals `to`. */
  datatype Query = Query(station: int, from: int, to: int, param: int, typeId: int, sensor: int, level: int)

  function TimeOfDay(t: int): int {
    t % DAY
  }

  /** The `hours()` part of a time of day. */
  function HourOfDay(t: int): int {
    TimeOfDay(t) / HOUR
  }

  function Midnight(t: int): int {
    t - TimeOfDay(t)
  }

  predicate UniqueKeys(rows: seq<Row>) {
    forall i, j :: 0 <= i < j < |rows| ==> rows[i].key != rows[j].key
  }

  predicate DistinctTimes(rows: seq<Row>) {
    forall i, j :: 0 <= i < j < |rows| ==> rows[i].key.obstime != rows[j].key.obstime
  }

  /** The window convention of `getTimeSpan`: exclusive start, inclusive end. */
  predicate InWindow(rows: seq<Row>, from: int, to: int) {
    forall i :: 0 <= i < |rows| ==> from < rows[i].key.obstime <= to
  }

  predicate HasTime(rows: seq<Row>, t: int) {
    exists r :: r in rows && r.key.obstime == t
  }

  lemma OneRowPerTime(rows: seq<Row>, a: Row, b: Row)
    requires DistinctTimes(rows) && a in rows && b in rows && a.key.obstime == b.key.obstime
    ensures a == b
  {
  }

  lemma SomeRow(rows: seq<Row>)
    ensures rows == [] || exists r :: r in rows
  {
    if rows != [] {
      assert rows[0] in rows;
    }
  }

  function Min(a: int, b: int): int {
    if a < b then a else b
  }

  function Max(a: int, b: int): int {
    if a < b then b else a
  }

  /** The observation's identity with its sensor column left out. */
  predicate SameButSensor(a: Key, b: Key) {
    a.(sensor := b.sensor) == b
  }
}
