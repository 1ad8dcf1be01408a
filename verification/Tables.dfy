/**
 * Row lists seen as maps.
 *
 * The cache table and the lists that travel between the program's parts are
 * sequences of rows; `View` is the key-to-value map such a list stands for when
 * later rows overwrite earlier ones. Each list operation is related to the
 * corresponding operation on maps.
 */
module Tables {
  import opened Observations

  type Store = map<Key, Value>

  function View(rows: seq<Row>): Store {
    if rows == [] then map[]
    else
      var last := rows[|rows| - 1];
      View(rows[..|rows| - 1])[last.key := last.value]
  }

  lemma ViewAppend(rows: seq<Row>, r: Row)
    ensures View(rows + [r]) == View(rows)[r.key := r.value]
  {
    assert (rows + [r])[..|rows|] == rows;
  }

  lemma {:induction false} ViewHas(rows: seq<Row>, k: Key)
    ensures k in View(rows) <==> exists i :: 0 <= i < |rows| && rows[i].key == k
  {
    if rows != [] {
      var front := rows[..|rows| - 1];
      ViewHas(front, k);
      if k in View(front) {
        var i :| 0 <= i < |front| && front[i].key == k;
        assert rows[i].key == k;
      }
      if i :| 0 <= i < |rows| && rows[i].key == k {
        assert i < |front| ==> front[i].key == k;
        assert rows[|rows| - 1].key in View(rows);
      }
    }
  }

  lemma {:induction false} ViewAt(rows: seq<Row>, i: nat)
    requires UniqueKeys(rows) && i < |rows|
    ensures rows[i].key in View(rows) && View(rows)[rows[i].key] == rows[i].value
  {
    if i < |rows| - 1 {
      var front := rows[..|rows| - 1];
      ViewAt(front, i);
      assert front[i] == rows[i];
      assert rows[i].key != rows[|rows| - 1].key;
    }
  }

  lemma UpdateOfSum(a: Store, b: Store, k: Key, v: Value)
    ensures (a + b)[k := v] == a + b[k := v]
    ensures k !in b ==> a[k := v] + b == (a + b)[k := v]
    ensures k in b ==> a[k := v] + b == a + b
  {
  }

  /** `find_if` for the row of a key; the list's length when there is none. */
  method FindKey(rows: seq<Row>, k: Key) returns (i: nat)
    ensures i <= |rows|
    ensures i < |rows| <==> k in View(rows)
    ensures i < |rows| ==> rows[i].key == k
  {
    i := 0;
    while i < |rows| && rows[i].key != k
      invariant 0 <= i <= |rows|
      invariant forall j :: 0 <= j < i ==> rows[j].key != k
    {
      i := i + 1;
    }
    ViewHas(rows, k);
  }

  // ---- Selection by key ----

  datatype Side = CacheSide | SourceSide

  /** What a `where` clause or a `remove_if` keeps. */
  datatype Criterion =
    | ByQuery(side: Side, query: Query)
    | ByInterval(station: int, from: int, to: int)
    | BySeries(query: Query)
    | NotOlderThan(time: int)
    | OtherThan(key: Key)
    | OfParameters(params: set<int>)

  function AlternativeSensor(sensor: int): int {
    if sensor >= '0' as int then sensor - '0' as int else sensor + '0' as int
  }

  predicate CacheInterval(q: Query, t: int) {
    if q.from < q.to then q.from < t <= q.to
    else if q.from == q.to then t == q.from
    else q.to < t <= q.from
  }

  /** An interval request to kvalobs: `from` is made exclusive unless it equals `to`. */
  predicate SourceInterval(from: int, to: int, t: int) {
    var newFrom := if from != to then from + 1 else from;
    newFrom <= t <= to
  }

  function Abs(x: int): nat {
    if x < 0 then -x else x
  }

  /** The station number that stands for all stations in a request to kvalobs. */
  const ALL_STATIONS := 0

  predicate InInterval(station: int, from: int, to: int, k: Key) {
    (station == ALL_STATIONS || k.station == station) && SourceInterval(from, to, k.obstime)
  }

  /** What the kvalobs side keeps of an interval's rows. */
  predicate InSeries(q: Query, k: Key) {
    && k.param == q.param
    && k.typeId == q.typeId
    && (k.sensor == q.sensor || Abs(q.sensor - k.sensor) == '0' as int)
    && k.level == q.level
  }

  /** The row filter of either data access object. */
  predicate Selects(side: Side, q: Query, k: Key) {
    match side
    case SourceSide =>
      InInterval(q.station, q.from, q.to, k) && InSeries(q, k)
    case CacheSide =>
      && k.station == q.station
      && k.param == q.param
      && k.typeId == q.typeId
      && (k.sensor == q.sensor || k.sensor == AlternativeSensor(q.sensor))
      && k.level == q.level
      && CacheInterval(q, k.obstime)
  }

  predicate Accepts(c: Criterion, k: Key) {
    match c
    case ByQuery(side, q) => Selects(side, q, k)
    case ByInterval(station, from, to) => InInterval(station, from, to, k)
    case BySeries(q) => InSeries(q, k)
    case NotOlderThan(t) => k.obstime >= t
    case OtherThan(other) => k != other
    case OfParameters(params) => k.param in params
  }

  function Keep(c: Criterion, rows: seq<Row>): seq<Row> {
    if rows == [] then []
    else
      var last := rows[|rows| - 1];
      Keep(c, rows[..|rows| - 1]) + (if Accepts(c, last.key) then [last] else [])
  }

  function KeepView(c: Criterion, m: Store): Store {
    map k | k in m && Accepts(c, k) :: m[k]
  }

  lemma KeepViewUpdate(c: Criterion, m: Store, k: Key, v: Value)
    ensures KeepView(c, m[k := v]) == if Accepts(c, k) then KeepView(c, m)[k := v] else KeepView(c, m)
  {
  }

  /** Filtering a list filters its view, whether or not keys repeat. */
  lemma {:induction false} KeepRefines(c: Criterion, rows: seq<Row>)
    ensures View(Keep(c, rows)) == KeepView(c, View(rows))
  {
    if rows != [] {
      var front, last := rows[..|rows| - 1], rows[|rows| - 1];
      KeepRefines(c, front);
      KeepViewUpdate(c, View(front), last.key, last.value);
      if Accepts(c, last.key) {
        ViewAppend(Keep(c, front), last);
      } else {
        assert Keep(c, rows) == Keep(c, front);
      }
    }
  }

  lemma {:induction false} KeepMembers(c: Criterion, rows: seq<Row>)
    ensures forall r :: r in Keep(c, rows) <==> r in rows && Accepts(c, r.key)
  {
    if rows != [] {
      var front, last := rows[..|rows| - 1], rows[|rows| - 1];
      KeepMembers(c, front);
      assert rows == front + [last];
    }
  }

  lemma {:induction false} KeepUnique(c: Criterion, rows: seq<Row>)
    requires UniqueKeys(rows)
    ensures UniqueKeys(Keep(c, rows))
  {
    if rows != [] {
      var front, last := rows[..|rows| - 1], rows[|rows| - 1];
      KeepUnique(c, front);
      KeepMembers(c, front);
      forall i | 0 <= i < |Keep(c, front)|
        ensures Keep(c, front)[i].key != last.key
      {
        assert Keep(c, front)[i] in front;
      }
    }
  }

  lemma {:induction false} KeepTwice(first: Criterion, second: Criterion, both: Criterion, rows: seq<Row>)
    requires forall k :: Accepts(both, k) <==> Accepts(first, k) && Accepts(second, k)
    ensures Keep(second, Keep(first, rows)) == Keep(both, rows)
  {
    if rows != [] {
      var front, last := rows[..|rows| - 1], rows[|rows| - 1];
      KeepTwice(first, second, both, front);
      if Accepts(first, last.key) {
      } else {
        assert Keep(first, rows) == Keep(first, front);
      }
    }
  }

  lemma IntervalThenSeries(q: Query, rows: seq<Row>)
    ensures Keep(BySeries(q), Keep(ByInterval(q.station, q.from, q.to), rows)) == Keep(ByQuery(SourceSide, q), rows)
  {
    KeepTwice(ByInterval(q.station, q.from, q.to), BySeries(q), ByQuery(SourceSide, q), rows);
  }

  /** Reading from a list of stored rows. */
  function StoreReads(stored: seq<Row>): Query -> seq<Row> {
    q => Keep(ByQuery(SourceSide, q), stored)
  }

  // ---- Insert, or delete and insert ----

  function Upsert(rows: seq<Row>, r: Row): seq<Row> {
    if r.key in View(rows) then Keep(OtherThan(r.key), rows) + [r] else rows + [r]
  }

  function UpsertAll(rows: seq<Row>, data: seq<Row>): seq<Row> {
    if data == [] then rows
    else Upsert(UpsertAll(rows, data[..|data| - 1]), data[|data| - 1])
  }

  lemma RemoveThenSet(m: Store, k: Key, v: Value)
    ensures k !in KeepView(OtherThan(k), m)
    ensures KeepView(OtherThan(k), m)[k := v] == m[k := v]
  {
  }

  lemma UpsertRefines(rows: seq<Row>, r: Row)
    requires UniqueKeys(rows)
    ensures UniqueKeys(Upsert(rows, r))
    ensures View(Upsert(rows, r)) == View(rows)[r.key := r.value]
  {
    if r.key in View(rows) {
      KeepRefines(OtherThan(r.key), rows);
      KeepUnique(OtherThan(r.key), rows);
      RemoveThenSet(View(rows), r.key, r.value);
      AppendNewKey(Keep(OtherThan(r.key), rows), r);
    } else {
      AppendNewKey(rows, r);
    }
  }

  /** The table stays keyed and a batch acts on it as a last-writer-wins update. */
  lemma {:induction false} UpsertAllRefines(rows: seq<Row>, data: seq<Row>)
    requires UniqueKeys(rows)
    ensures UniqueKeys(UpsertAll(rows, data))
    ensures View(UpsertAll(rows, data)) == View(rows) + View(data)
  {
    if data != [] {
      var front, last := data[..|data| - 1], data[|data| - 1];
      UpsertAllRefines(rows, front);
      UpsertRefines(UpsertAll(rows, front), last);
      UpdateOfSum(View(rows), View(front), last.key, last.value);
    }
  }

  lemma {:induction false} UpsertAllMembers(rows: seq<Row>, data: seq<Row>)
    ensures forall r :: r in UpsertAll(rows, data) ==> r in rows || r in data
  {
    if data != [] {
      var front, last := data[..|data| - 1], data[|data| - 1];
      UpsertAllMembers(rows, front);
      KeepMembers(OtherThan(last.key), UpsertAll(rows, front));
      assert data == front + [last];
    }
  }

  // ---- Merging two answers ----

  /** Append the rows of `extra` whose key is not in the list yet. */
  function MergeNew(data: seq<Row>, extra: seq<Row>): seq<Row> {
    if extra == [] then data
    else
      var merged := MergeNew(data, extra[..|extra| - 1]);
      var last := extra[|extra| - 1];
      if last.key in View(merged) then merged else merged + [last]
  }

  lemma {:induction false} MergeRefines(data: seq<Row>, extra: seq<Row>)
    requires UniqueKeys(data) && UniqueKeys(extra)
    ensures UniqueKeys(MergeNew(data, extra))
    ensures View(MergeNew(data, extra)) == View(extra) + View(data)
  {
    if extra != [] {
      var front, last := extra[..|extra| - 1], extra[|extra| - 1];
      MergeRefines(data, front);
      LastKeyIsNew(extra);
      UpdateOfSum(View(front), View(data), last.key, last.value);
      var merged := MergeNew(data, front);
      if last.key !in View(merged) {
        AppendNewKey(merged, last);
      }
    }
  }

  lemma LastKeyIsNew(rows: seq<Row>)
    requires UniqueKeys(rows) && rows != []
    ensures rows[|rows| - 1].key !in View(rows[..|rows| - 1])
  {
    ViewHas(rows[..|rows| - 1], rows[|rows| - 1].key);
  }

  lemma AppendNewKey(rows: seq<Row>, r: Row)
    requires UniqueKeys(rows) && r.key !in View(rows)
    ensures UniqueKeys(rows + [r]) && View(rows + [r]) == View(rows)[r.key := r.value]
  {
    ViewAppend(rows, r);
    forall i | 0 <= i < |rows|
      ensures rows[i].key != r.key
    {
      ViewAt(rows, i);
    }
  }

  // ---- The two filters select the same rows ----

  /** Sensor numbers as digits or as the characters of digits. */
  predicate PlainSensor(sensor: int) {
    0 <= sensor < 10 || '0' as int <= sensor < '0' as int + 10
  }

  /** The sensor that only the kvalobs filter takes for `sensor`. */
  function OverreachingSensor(sensor: int): int {
    if sensor >= '0' as int then sensor + '0' as int else sensor - '0' as int
  }

  /** For ordered intervals the filters differ on one far-away sensor number only. */
  lemma FiltersDifferOnOneSensor(q: Query, k: Key)
    requires q.from <= q.to && q.station != ALL_STATIONS
    ensures Selects(CacheSide, q, k) == Selects(SourceSide, q, k)
            <==> !(Selects(SourceSide, q, k) && k.sensor == OverreachingSensor(q.sensor))
  {
    assert k.sensor == OverreachingSensor(q.sensor) ==> k.sensor != AlternativeSensor(q.sensor);
  }

  lemma FiltersAgree(q: Query, k: Key)
    requires q.from <= q.to && q.station != ALL_STATIONS && PlainSensor(q.sensor) && PlainSensor(k.sensor)
    ensures Selects(CacheSide, q, k) == Selects(SourceSide, q, k)
  {
    FiltersDifferOnOneSensor(q, k);
  }

  /**
   * Two rows with one obstime in an answer can only be one sensor written both
   * as a digit and as a character, so stores without such aliases give answers
   * with distinct times.
   */
  lemma AnswersHaveDistinctTimes(side: Side, q: Query, rows: seq<Row>)
    requires UniqueKeys(rows) && q.station != ALL_STATIONS
    requires forall a, b :: a in rows && b in rows && SameButSensor(a.key, b.key) ==> a.key == b.key
    ensures DistinctTimes(Keep(ByQuery(side, q), rows))
  {
    var answer := Keep(ByQuery(side, q), rows);
    KeepUnique(ByQuery(side, q), rows);
    KeepMembers(ByQuery(side, q), rows);
    forall i, j | 0 <= i < j < |answer|
      ensures answer[i].key.obstime != answer[j].key.obstime
    {
      assert answer[i] in answer && answer[j] in answer;
    }
  }
}
