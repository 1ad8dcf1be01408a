/**
 * What the proxy's operations compute, as functions of the rows kvalobs holds,
 * the rows of the cache table and the watermark `oldestInProxy`.
 *
 * The cache is trusted for times above the watermark only. A read is split
 * there; the theorems say when the split read is the direct read.
 */
module ProxySpec {
  import opened Wrappers
  import opened Observations
  import opened Tables

  /** What kvalobs and the cache table hold. */
  datatype Contents = Contents(stored: seq<Row>, cached: seq<Row>)

  /** A batch given to `sendData`, and whether kvalobs accepts what is sent on. */
  datatype Delivery = Delivery(data: seq<Row>, accepted: bool)

  function Get(m: Store, k: Key): Option<Value> {
    if k in m then Some(m[k]) else None
  }

  /** Cache and source hold the same rows of interesting parameters above the watermark. */
  ghost predicate AgreeAbove(source: Store, cache: Store, watermark: int, interesting: set<int>) {
    forall k: Key :: k.param in interesting && k.obstime > watermark ==> Get(source, k) == Get(cache, k)
  }

  ghost predicate PlainSensors(m: Store) {
    forall k :: k in m ==> PlainSensor(k.sensor)
  }

  // ---- Reading ----

  function OlderPart(stored: seq<Row>, watermark: Option<int>, q: Query): seq<Row> {
    if watermark.None? || q.from <= watermark.value then
      var to := if watermark.None? then q.to else Min(q.to, watermark.value);
      Keep(ByQuery(SourceSide, q.(to := to)), stored)
    else []
  }

  function NewerPart(cached: seq<Row>, watermark: Option<int>, q: Query): seq<Row> {
    if watermark.None? || q.to > watermark.value then
      var from := if watermark.None? then q.from else Max(q.from, watermark.value);
      Keep(ByQuery(CacheSide, q.(from := from)), cached)
    else []
  }

  function SplitRead(stored: seq<Row>, cached: seq<Row>, watermark: Option<int>, q: Query): seq<Row> {
    MergeNew(OlderPart(stored, watermark, q), NewerPart(cached, watermark, q))
  }

  function DirectRead(stored: seq<Row>, q: Query): seq<Row> {
    Keep(ByQuery(SourceSide, q), stored)
  }

  /** The rows at exactly `q.from`, which an interval read should not return. */
  function RowsAtStart(source: Store, q: Query): Store {
    KeepView(ByQuery(SourceSide, q.(to := q.from)), source)
  }

  /**
   * What a read returns: the rows of the station, parameter, type and level, of
   * the sensor in either way of writing it, after the start and up to the end
   * of the interval.
   */
  lemma DirectReadIff(stored: seq<Row>, q: Query, r: Row)
    requires q.from <= q.to && q.station != 0
    ensures r in DirectRead(stored, q)
            <==> && r in stored
                 && r.key.station == q.station && r.key.param == q.param
                 && r.key.typeId == q.typeId && r.key.level == q.level
                 && r.key.sensor in {q.sensor, q.sensor + 48, q.sensor - 48}
                 && (q.from < r.key.obstime <= q.to || q.from == r.key.obstime == q.to)
  {
    KeepMembers(ByQuery(SourceSide, q), stored);
  }

  /** The one case where the kvalobs half turns into an inclusive point query. */
  predicate StartsOnWatermark(watermark: int, q: Query) {
    q.from == watermark < q.to
  }

  predicate Readable(q: Query, interesting: set<int>) {
    && q.from <= q.to
    && q.param in interesting
    && q.station != ALL_STATIONS
    && PlainSensor(q.sensor)
  }

  lemma SplitReadView(stored: seq<Row>, cached: seq<Row>, watermark: Option<int>, q: Query)
    requires UniqueKeys(stored) && UniqueKeys(cached)
    ensures UniqueKeys(SplitRead(stored, cached, watermark, q))
    ensures View(SplitRead(stored, cached, watermark, q))
            == View(NewerPart(cached, watermark, q)) + View(OlderPart(stored, watermark, q))
  {
    var to := if watermark.None? then q.to else Min(q.to, watermark.value);
    var from := if watermark.None? then q.from else Max(q.from, watermark.value);
    KeepUnique(ByQuery(SourceSide, q.(to := to)), stored);
    KeepUnique(ByQuery(CacheSide, q.(from := from)), cached);
    MergeRefines(OlderPart(stored, watermark, q), NewerPart(cached, watermark, q));
  }

  /** Which side an answer's row comes from, key by key. */
  lemma SplitReadAt(stored: seq<Row>, cached: seq<Row>, watermark: int, q: Query, k: Key)
    requires UniqueKeys(stored) && UniqueKeys(cached) && q.from <= q.to
    ensures var answer := View(SplitRead(stored, cached, Some(watermark), q));
            Get(answer, k) ==
            if k.obstime <= watermark && Selects(SourceSide, q, k) then Get(View(stored), k)
            else if StartsOnWatermark(watermark, q) && Selects(SourceSide, q.(to := q.from), k) then
              Get(View(stored), k)
            else if k.obstime > watermark && Selects(CacheSide, q, k) then Get(View(cached), k)
            else None
  {
    SplitReadView(stored, cached, Some(watermark), q);
    KeepRefines(ByQuery(SourceSide, q.(to := Min(q.to, watermark))), stored);
    KeepRefines(ByQuery(CacheSide, q.(from := Max(q.from, watermark))), cached);
  }

  /**
   * Refinement: while cache and source agree above the watermark, the split
   * read is the direct read, plus the rows at `q.from` when the interval starts
   * exactly on the watermark.
   */
  lemma SplitReadRefines(stored: seq<Row>, cached: seq<Row>, watermark: int, q: Query, interesting: set<int>)
    requires UniqueKeys(stored) && UniqueKeys(cached)
    requires PlainSensors(View(stored)) && Readable(q, interesting)
    requires AgreeAbove(View(stored), View(cached), watermark, interesting)
    ensures UniqueKeys(SplitRead(stored, cached, Some(watermark), q))
    ensures View(SplitRead(stored, cached, Some(watermark), q))
            == View(DirectRead(stored, q))
               + (if StartsOnWatermark(watermark, q) then RowsAtStart(View(stored), q) else map[])
  {
    SplitReadView(stored, cached, Some(watermark), q);
    KeepRefines(ByQuery(SourceSide, q), stored);
    var answer := View(SplitRead(stored, cached, Some(watermark), q));
    var expected := View(DirectRead(stored, q))
                    + (if StartsOnWatermark(watermark, q) then RowsAtStart(View(stored), q) else map[]);
    forall k: Key
      ensures Get(answer, k) == Get(expected, k)
    {
      SplitReadAt(stored, cached, watermark, q, k);
      if k in View(stored) {
        FiltersAgree(q, k);
      }
    }
    SameByGet(answer, expected);
  }

  lemma SameByGet(a: Store, b: Store)
    requires forall k: Key :: Get(a, k) == Get(b, k)
    ensures a == b
  {
    forall k: Key
      ensures k in a <==> k in b
      ensures k in a ==> a[k] == b[k]
    {
      assert Get(a, k) == Get(b, k);
    }
  }

  /**
   * Exactly when the split read is wrong: the interval starts on the watermark
   * and kvalobs has a row of the series at that very instant.
   */
  lemma SplitReadIsDirectReadIff(stored: seq<Row>, cached: seq<Row>, watermark: int, q: Query, interesting: set<int>)
    requires UniqueKeys(stored) && UniqueKeys(cached)
    requires PlainSensors(View(stored)) && Readable(q, interesting)
    requires AgreeAbove(View(stored), View(cached), watermark, interesting)
    ensures View(SplitRead(stored, cached, Some(watermark), q)) == View(DirectRead(stored, q))
            <==> !(StartsOnWatermark(watermark, q) && RowsAtStart(View(stored), q) != map[])
  {
    SplitReadRefines(stored, cached, watermark, q, interesting);
    if StartsOnWatermark(watermark, q) {
      StartIsExcluded(stored, q);
    } else {
      NothingAdded(View(DirectRead(stored, q)));
    }
  }

  lemma StartIsExcluded(stored: seq<Row>, q: Query)
    requires q.from < q.to
    ensures View(DirectRead(stored, q)).Keys !! RowsAtStart(View(stored), q).Keys
  {
    KeepRefines(ByQuery(SourceSide, q), stored);
  }

  /** A read that starts on the watermark and returns a row its window excludes. */
  lemma BoundaryReadReturnsTooMuch()
    ensures exists stored: seq<Row>, cached: seq<Row>, watermark: int, q: Query ::
              && UniqueKeys(stored) && UniqueKeys(cached) && PlainSensors(View(stored))
              && Readable(q, {RA})
              && AgreeAbove(View(stored), View(cached), watermark, {RA})
              && !InWindow(SplitRead(stored, cached, Some(watermark), q), q.from, q.to)
  {
    var value := Value(1.0, 1.0, false, true, ControlInfo(0, 0, ""), UseInfo(0, 0, ""));
    var row := Row(Key(42, 0, RA, 0, 0, 302), value);
    var q := Query(42, 0, 12 * HOUR, RA, 302, 0, 0);
    var stored, cached := [row], [];
    ViewAppend([], row);
    assert [] + [row] == stored;
    assert Keep(ByQuery(SourceSide, q.(to := 0)), stored) == stored by {
    }
    assert SplitRead(stored, cached, Some(0), q) == stored;
    assert !InWindow(stored, q.from, q.to);
  }

  lemma WindowByKeys(rows: seq<Row>, from: int, to: int)
    requires UniqueKeys(rows)
    ensures InWindow(rows, from, to) <==> forall k :: k in View(rows) ==> from < k.obstime <= to
  {
    forall i | 0 <= i < |rows|
      ensures rows[i].key in View(rows)
    {
      ViewAt(rows, i);
    }
    forall k | k in View(rows)
      ensures exists i :: 0 <= i < |rows| && rows[i].key == k
    {
      ViewHas(rows, k);
    }
  }

  /** A read leaves its window on exactly the calls that start on the watermark and find a row there. */
  lemma ReadsStayInWindow(stored: seq<Row>, cached: seq<Row>, watermark: int, q: Query)
    requires UniqueKeys(stored) && UniqueKeys(cached) && q.from < q.to
    ensures InWindow(SplitRead(stored, cached, Some(watermark), q), q.from, q.to)
            <==> !(StartsOnWatermark(watermark, q) && RowsAtStart(View(stored), q) != map[])
  {
    SplitReadView(stored, cached, Some(watermark), q);
    WindowByKeys(SplitRead(stored, cached, Some(watermark), q), q.from, q.to);
    forall k
      ensures k in View(SplitRead(stored, cached, Some(watermark), q)) && !(q.from < k.obstime <= q.to)
              <==> StartsOnWatermark(watermark, q) && k in RowsAtStart(View(stored), q)
    {
      OutOfWindowIff(stored, cached, watermark, q, k);
    }
  }

  lemma OutOfWindowIff(stored: seq<Row>, cached: seq<Row>, watermark: int, q: Query, k: Key)
    requires UniqueKeys(stored) && UniqueKeys(cached) && q.from < q.to
    ensures k in View(SplitRead(stored, cached, Some(watermark), q)) && !(q.from < k.obstime <= q.to)
            <==> StartsOnWatermark(watermark, q) && k in RowsAtStart(View(stored), q)
  {
    SplitReadAt(stored, cached, watermark, q, k);
  }

  /**
   * With no watermark both sides are read in full; kvalobs' rows take
   * precedence, so a cache without rows of its own cannot spoil the answer.
   */
  lemma UnsetWatermarkReadsDirectly(stored: seq<Row>, cached: seq<Row>, q: Query, interesting: set<int>)
    requires UniqueKeys(stored) && UniqueKeys(cached)
    requires PlainSensors(View(stored)) && Readable(q, interesting)
    requires View(cached).Keys <= View(stored).Keys
    ensures UniqueKeys(SplitRead(stored, cached, None, q))
    ensures View(SplitRead(stored, cached, None, q)) == View(DirectRead(stored, q))
  {
    SplitReadView(stored, cached, None, q);
    assert q.(to := q.to) == q && q.(from := q.from) == q;
    KeepRefines(ByQuery(SourceSide, q), stored);
    KeepRefines(ByQuery(CacheSide, q), cached);
    forall k | k in View(NewerPart(cached, None, q))
      ensures k in View(OlderPart(stored, None, q))
    {
      FiltersAgree(q, k);
    }
  }

  // ---- Sending ----

  const THRESHOLD := 0.04999

  function AbsReal(x: real): real {
    if x < 0.0 then -x else x
  }

  predicate DifferentCorrected(a: Value, b: Value) {
    if a.valid != b.valid then true
    else a.valid && AbsReal(a.corrected - b.corrected) > THRESHOLD
  }

  predicate DifferentOriginal(a: Value, b: Value) {
    if a.originalMissing != b.originalMissing then true
    else !a.originalMissing && AbsReal(a.original - b.original) > THRESHOLD
  }

  predicate Different(a: Value, b: Value) {
    DifferentCorrected(a, b) || DifferentOriginal(a, b) || a.control != b.control
  }

  function PointQuery(k: Key): Query {
    Query(k.station, k.obstime, k.obstime, k.param, k.typeId, k.sensor, k.level)
  }

  /** Does the row say anything that the data already stored does not? */
  predicate UpdatesKvalobs(stored: seq<Row>, cached: seq<Row>, watermark: Option<int>, r: Row) {
    var found := SplitRead(stored, cached, watermark, PointQuery(r.key));
    found == [] || Different(found[0].value, r.value)
  }

  /** The part of a batch that is worth sending. */
  function ToSend(stored: seq<Row>, cached: seq<Row>, watermark: Option<int>, interesting: set<int>, data: seq<Row>)
    : seq<Row>
  {
    if data == [] then []
    else
      var last := data[|data| - 1];
      ToSend(stored, cached, watermark, interesting, data[..|data| - 1])
      + (if last.key.param in interesting && UpdatesKvalobs(stored, cached, watermark, last) then [last] else [])
  }

  /** `a` carries `b`'s flags and is within the threshold of its values. */
  predicate Close(a: Value, b: Value) {
    && a.valid == b.valid
    && a.originalMissing == b.originalMissing
    && a.control == b.control
    && (a.valid ==> -THRESHOLD <= a.corrected - b.corrected <= THRESHOLD)
    && (!a.originalMissing ==> -THRESHOLD <= a.original - b.original <= THRESHOLD)
  }

  /** Key universes in which no sensor is written in two ways. */
  ghost predicate AliasFree(keys: iset<Key>) {
    && (forall k :: k in keys ==> PlainSensor(k.sensor) && k.station != ALL_STATIONS)
    && (forall a, b :: a in keys && b in keys && SameButSensor(a, b) ==> a == b)
  }

  ghost predicate KeysWithin(rows: seq<Row>, keys: iset<Key>) {
    forall r :: r in rows ==> r.key in keys
  }

  /** The proxy's invariant, for tables over an alias-free universe of keys. */
  ghost predicate Clean(t: Contents, watermark: int, interesting: set<int>, keys: iset<Key>) {
    && UniqueKeys(t.stored) && UniqueKeys(t.cached)
    && AliasFree(keys) && KeysWithin(t.stored, keys)
    && AgreeAbove(View(t.stored), View(t.cached), watermark, interesting)
  }

  lemma SingletonList(rows: seq<Row>, k: Key, v: Value)
    requires UniqueKeys(rows) && View(rows) == map[k := v]
    ensures rows == [Row(k, v)]
  {
    ViewHas(rows, k);
    var i :| 0 <= i < |rows| && rows[i].key == k;
    ViewAt(rows, i);
    if |rows| > 1 {
      ViewAt(rows, 0);
      ViewAt(rows, 1);
      assert false;
    }
  }

  lemma ViewKeysWithin(rows: seq<Row>, keys: iset<Key>, k: Key)
    requires KeysWithin(rows, keys) && k in View(rows)
    ensures k in keys
  {
    ViewHas(rows, k);
    var i :| 0 <= i < |rows| && rows[i].key == k;
    assert rows[i] in rows;
  }

  lemma PointView(t: Contents, watermark: int, interesting: set<int>, keys: iset<Key>, k: Key)
    requires Clean(t, watermark, interesting, keys)
    requires k in keys && k.param in interesting
    ensures UniqueKeys(SplitRead(t.stored, t.cached, Some(watermark), PointQuery(k)))
    ensures View(SplitRead(t.stored, t.cached, Some(watermark), PointQuery(k)))
            == if k in View(t.stored) then map[k := View(t.stored)[k]] else map[]
  {
    forall other | other in View(t.stored)
      ensures other in keys
      ensures Selects(SourceSide, PointQuery(k), other) <==> other == k
    {
      ViewKeysWithin(t.stored, keys, other);
    }
    SplitReadRefines(t.stored, t.cached, watermark, PointQuery(k), interesting);
    KeepRefines(ByQuery(SourceSide, PointQuery(k)), t.stored);
    NothingAdded(View(DirectRead(t.stored, PointQuery(k))));
  }

  lemma NothingAdded(m: Store)
    ensures m + map[] == m
  {
  }

  /** A point read finds exactly the stored row of that key. */
  lemma PointRead(t: Contents, watermark: int, interesting: set<int>, keys: iset<Key>, k: Key)
    requires Clean(t, watermark, interesting, keys)
    requires k in keys && k.param in interesting
    ensures SplitRead(t.stored, t.cached, Some(watermark), PointQuery(k))
            == if k in View(t.stored) then [Row(k, View(t.stored)[k])] else []
  {
    var answer := SplitRead(t.stored, t.cached, Some(watermark), PointQuery(k));
    PointView(t, watermark, interesting, keys, k);
    if k in View(t.stored) {
      SingletonList(answer, k, View(t.stored)[k]);
    } else if answer != [] {
      ViewAt(answer, 0);
      assert false;
    }
  }

  lemma {:induction false} ToSendMembers(
    stored: seq<Row>, cached: seq<Row>, watermark: Option<int>, interesting: set<int>, data: seq<Row>)
    ensures forall r :: r in ToSend(stored, cached, watermark, interesting, data)
                        <==> r in data && r.key.param in interesting && UpdatesKvalobs(stored, cached, watermark, r)
  {
    if data != [] {
      var front := data[..|data| - 1];
      ToSendMembers(stored, cached, watermark, interesting, front);
      assert data == front + [data[|data| - 1]];
    }
  }

  lemma {:induction false} ToSendUnique(
    stored: seq<Row>, cached: seq<Row>, watermark: Option<int>, interesting: set<int>, data: seq<Row>)
    requires UniqueKeys(data)
    ensures UniqueKeys(ToSend(stored, cached, watermark, interesting, data))
  {
    if data != [] {
      var front, last := data[..|data| - 1], data[|data| - 1];
      var sent := ToSend(stored, cached, watermark, interesting, front);
      ToSendUnique(stored, cached, watermark, interesting, front);
      ToSendMembers(stored, cached, watermark, interesting, front);
      forall i | 0 <= i < |sent|
        ensures sent[i].key != last.key
      {
        assert sent[i] in front;
      }
    }
  }

  lemma RowInView(rows: seq<Row>, r: Row)
    requires UniqueKeys(rows) && r in rows
    ensures r.key in View(rows) && View(rows)[r.key] == r.value
  {
    var i :| 0 <= i < |rows| && rows[i] == r;
    ViewAt(rows, i);
  }

  /** One delivery; a rejected one leaves both tables as they were. */
  function Deliver(t: Contents, watermark: int, interesting: set<int>, d: Delivery): Contents {
    var sent := ToSend(t.stored, t.cached, Some(watermark), interesting, d.data);
    if d.accepted then Contents(UpsertAll(t.stored, sent), UpsertAll(t.cached, sent)) else t
  }

  lemma DeliverStores(t: Contents, watermark: int, interesting: set<int>, data: seq<Row>)
    requires UniqueKeys(t.stored) && UniqueKeys(t.cached)
    ensures var sent := View(ToSend(t.stored, t.cached, Some(watermark), interesting, data));
            var t' := Deliver(t, watermark, interesting, Delivery(data, true));
            && UniqueKeys(t'.stored) && UniqueKeys(t'.cached)
            && View(t'.stored) == View(t.stored) + sent
            && View(t'.cached) == View(t.cached) + sent
  {
    var sent := ToSend(t.stored, t.cached, Some(watermark), interesting, data);
    UpsertAllRefines(t.stored, sent);
    UpsertAllRefines(t.cached, sent);
  }

  lemma DeliverKeepsClean(t: Contents, watermark: int, interesting: set<int>, keys: iset<Key>, d: Delivery)
    requires Clean(t, watermark, interesting, keys) && KeysWithin(d.data, keys)
    ensures Clean(Deliver(t, watermark, interesting, d), watermark, interesting, keys)
  {
    if d.accepted {
      var sent := ToSend(t.stored, t.cached, Some(watermark), interesting, d.data);
      var t' := Deliver(t, watermark, interesting, d);
      ToSendMembers(t.stored, t.cached, Some(watermark), interesting, d.data);
      DeliverStores(t, watermark, interesting, d.data);
      forall r | r in t'.stored
        ensures r.key in keys
      {
        RowInView(t'.stored, r);
        if r.key in View(sent) {
          ViewKeysWithin(sent, keys, r.key);
        } else {
          ViewKeysWithin(t.stored, keys, r.key);
        }
      }
    }
  }

  lemma UpdatesIff(t: Contents, watermark: int, interesting: set<int>, keys: iset<Key>, r: Row)
    requires Clean(t, watermark, interesting, keys)
    requires r.key in keys && r.key.param in interesting
    ensures UpdatesKvalobs(t.stored, t.cached, Some(watermark), r)
            <==> r.key !in View(t.stored) || Different(View(t.stored)[r.key], r.value)
  {
    PointRead(t, watermark, interesting, keys, r.key);
  }

  /**
   * Exactly when a row of an interesting parameter is not sent on: kvalobs has a
   * row of its key with the same flags, and with values within 0.04999 where
   * they count.
   */
  lemma NotSentIff(t: Contents, watermark: int, interesting: set<int>, keys: iset<Key>, data: seq<Row>, r: Row)
    requires Clean(t, watermark, interesting, keys)
    requires r in data && r.key in keys && r.key.param in interesting
    ensures r !in ToSend(t.stored, t.cached, Some(watermark), interesting, data)
            <==> && r.key in View(t.stored)
                 && var v := View(t.stored)[r.key];
                    && v.control == r.value.control
                    && v.valid == r.value.valid && v.originalMissing == r.value.originalMissing
                    && (v.valid ==> -0.04999 <= v.corrected - r.value.corrected <= 0.04999)
                    && (!v.originalMissing ==> -0.04999 <= v.original - r.value.original <= 0.04999)
  {
    ToSendMembers(t.stored, t.cached, Some(watermark), interesting, data);
    UpdatesIff(t, watermark, interesting, keys, r);
  }

  /** A batch with distinct keys either sends a row as it is or leaves its key alone. */
  lemma SentRow(t: Contents, watermark: int, interesting: set<int>, data: seq<Row>, r: Row)
    requires UniqueKeys(data) && r in data
    ensures var sent := View(ToSend(t.stored, t.cached, Some(watermark), interesting, data));
            Get(sent, r.key) ==
            if r.key.param in interesting && UpdatesKvalobs(t.stored, t.cached, Some(watermark), r)
            then Some(r.value) else None
  {
    var sent := ToSend(t.stored, t.cached, Some(watermark), interesting, data);
    ToSendMembers(t.stored, t.cached, Some(watermark), interesting, data);
    ToSendUnique(t.stored, t.cached, Some(watermark), interesting, data);
    ListedOrAbsent(sent, data, r);
  }

  lemma ListedOrAbsent(part: seq<Row>, data: seq<Row>, r: Row)
    requires UniqueKeys(data) && UniqueKeys(part) && r in data
    requires forall x :: x in part ==> x in data
    ensures Get(View(part), r.key) == if r in part then Some(r.value) else None
  {
    if r in part {
      RowInView(part, r);
    } else if r.key in View(part) {
      ViewHas(part, r.key);
      var i :| 0 <= i < |part| && part[i].key == r.key;
      RowInView(data, Row(r.key, part[i].value));
      RowInView(data, r);
    }
  }

  /**
   * After an accepted delivery every offered row of an interesting parameter is
   * stored, with the same flags and with values within the threshold of those
   * offered.
   */
  lemma SendKeepsStoreClose(t: Contents, watermark: int, interesting: set<int>, keys: iset<Key>, data: seq<Row>, r: Row)
    requires Clean(t, watermark, interesting, keys)
    requires UniqueKeys(data) && KeysWithin(data, keys)
    requires r in data && r.key.param in interesting
    ensures var after := View(Deliver(t, watermark, interesting, Delivery(data, true)).stored);
            r.key in after && Close(after[r.key], r.value)
  {
    DeliverStores(t, watermark, interesting, data);
    SentRow(t, watermark, interesting, data, r);
    UpdatesIff(t, watermark, interesting, keys, r);
  }

  /** Idempotence: offering an accepted batch again sends nothing. */
  lemma RepeatedSendIsEmpty(t: Contents, watermark: int, interesting: set<int>, keys: iset<Key>, data: seq<Row>)
    requires Clean(t, watermark, interesting, keys)
    requires UniqueKeys(data) && KeysWithin(data, keys)
    ensures var t' := Deliver(t, watermark, interesting, Delivery(data, true));
            ToSend(t'.stored, t'.cached, Some(watermark), interesting, data) == []
  {
    var t' := Deliver(t, watermark, interesting, Delivery(data, true));
    var again := ToSend(t'.stored, t'.cached, Some(watermark), interesting, data);
    DeliverKeepsClean(t, watermark, interesting, keys, Delivery(data, true));
    ToSendMembers(t'.stored, t'.cached, Some(watermark), interesting, data);
    if again != [] {
      var r := again[0];
      SendKeepsStoreClose(t, watermark, interesting, keys, data, r);
      UpdatesIff(t', watermark, interesting, keys, r);
      assert false;
    }
  }

  ghost predicate Offers(d: Delivery, k: Key) {
    d.accepted && exists r :: r in d.data && r.key == k
  }

  lemma UnofferedNotSent(t: Contents, watermark: int, interesting: set<int>, d: Delivery, k: Key)
    requires d.accepted && !Offers(d, k)
    ensures k !in View(ToSend(t.stored, t.cached, Some(watermark), interesting, d.data))
  {
    var sent := ToSend(t.stored, t.cached, Some(watermark), interesting, d.data);
    ToSendMembers(t.stored, t.cached, Some(watermark), interesting, d.data);
    ViewHas(sent, k);
    forall i | 0 <= i < |sent|
      ensures sent[i].key != k
    {
      assert sent[i] in d.data;
    }
  }
}
